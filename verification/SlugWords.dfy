/** What a title becomes: its words, in lower case and joined by dashes. */
module SlugWords {
  import opened Text
  import opened EventSlug

  /** A letter or digit spells itself in lower case, a blank, dash or underscore ends a word, an ampersand is the word "and",
      and anything else is as if it were not there. */
  function Spelled(c: char): string {
    var l := LowerChar(c);
    if 'a' <= l <= 'z' || '0' <= l <= '9' then [l]
    else if c == ' ' || c == '-' || c == '_' then "-"
    else if c == '&' then "-and-"
    else ""
  }

  function SpelledAll(title: string): string {
    Each(title, Spelled)
  }

  function Each(s: string, spell: char -> string): string {
    if s == [] then [] else spell(s[0]) + Each(s[1..], spell)
  }

  /** The pieces between dashes that are not empty; word is the piece begun before s. */
  function WordsFrom(s: string, word: string): seq<string> {
    if s == [] then OneWord(word)
    else if s[0] == '-' then OneWord(word) + WordsFrom(s[1..], "")
    else WordsFrom(s[1..], word + [s[0]])
  }

  function OneWord(word: string): seq<string> {
    if word == "" then [] else [word]
  }

  function Words(title: string): seq<string> {
    WordsFrom(SpelledAll(title), "")
  }

  function Joined(words: seq<string>): string {
    if words == [] then "" else if |words| == 1 then words[0] else words[0] + "-" + Joined(words[1..])
  }

  /** At most 64 characters, and no dash at the cut. */
  function Cut(s: string): string {
    if |s| <= 64 then s else if s[63] == '-' then s[..63] else s[..64]
  }

  // Filtering finds the words

  /** The letters, digits and dashes. */
  function Kept(s: string): string {
    if s == [] then [] else (if IsSlugChar(s[0]) then [s[0]] else []) + Kept(s[1..])
  }

  lemma {:induction false} KeptInSequence(a: string, b: string)
    ensures Kept(a + b) == Kept(a) + Kept(b)
  {
    if a == [] {
      assert a + b == b;
    } else {
      KeptInSequence(a[1..], b);
      assert (a + b)[0] == a[0] && (a + b)[1..] == a[1..] + b;
      Associated(if IsSlugChar(a[0]) then [a[0]] else [], Kept(a[1..]), Kept(b));
    }
  }

  lemma {:induction false} FilteringKeeps(s: string, lastDash: bool)
    ensures Filtered(Kept(s), lastDash) == Filtered(s, lastDash)
  {
    if s != [] {
      var next := if IsAlnum(s[0]) then false else if s[0] == '-' then true else lastDash;
      FilteringKeeps(s[1..], next);
      if IsSlugChar(s[0]) {
        assert Kept(s)[1..] == Kept(s[1..]);
      } else {
        assert Kept(s) == Kept(s[1..]);
      }
    }
  }

  lemma {:induction false} RightTrimInSequence(a: string, b: string)
    ensures TrimDashesRight(a + b) == if TrimDashesRight(b) == "" then TrimDashesRight(a) else a + TrimDashesRight(b)
    decreases |b|
  {
    var n := |b|;
    if n == 0 {
      assert a + b == a;
    } else {
      assert (a + b)[|a + b| - 1] == b[n - 1];
      if b[n - 1] == '-' {
        RightTrimInSequence(a, b[..n - 1]);
        assert (a + b)[..|a + b| - 1] == a + b[..n - 1];
      }
    }
  }

  lemma WordEnds(word: string)
    requires word != "" && word[|word| - 1] != '-'
    ensures TrimDashesRight(word) == word && TrimDashesRight(word + "-") == word
  {
    assert (word + "-")[..|word|] == word;
  }

  lemma {:induction false} NoWordIsEmpty(s: string, word: string)
    ensures forall w | w in WordsFrom(s, word) :: w != ""
  {
    if s != [] {
      NoWordIsEmpty(s[1..], if s[0] == '-' then "" else word + [s[0]]);
    }
  }

  lemma JoinedIsEmptyIff(words: seq<string>)
    requires forall w | w in words :: w != ""
    ensures Joined(words) == "" <==> words == []
  {
    if words != [] {
      assert words[0] in words;
    }
  }

  lemma OneMoreWord(word: string, words: seq<string>)
    requires word != "" && forall w | w in words :: w != ""
    ensures Joined([word] + words) == if Joined(words) == "" then word else word + "-" + Joined(words)
  {
    JoinedIsEmptyIff(words);
    assert ([word] + words)[1..] == words;
  }

  ghost predicate AllSlugChars(s: string) {
    forall i | 0 <= i < |s| :: IsSlugChar(s[i])
  }

  /** After a letter or digit: the word so far, the rest filtered, and no dash at the end. */
  lemma {:induction false} WordContinues(s: string, word: string)
    requires AllSlugChars(s) && word != "" && word[|word| - 1] != '-'
    ensures TrimDashesRight(word + Filtered(s, false)) == Joined(WordsFrom(s, word))
    decreases |s|, 0
  {
    if s == [] {
      WordEnds(word);
      assert word + Filtered(s, false) == word;
    } else {
      var rest := s[1..];
      if s[0] == '-' {
        WordBegins(rest);
        NoWordIsEmpty(rest, "");
        OneMoreWord(word, WordsFrom(rest, ""));
        RightTrimInSequence(word + "-", Filtered(rest, true));
        WordEnds(word);
        Associated(word, "-", Filtered(rest, true));
      } else {
        WordContinues(rest, word + [s[0]]);
        Associated(word, [s[0]], Filtered(rest, false));
      }
    }
  }

  /** After a dash: only the rest counts. */
  lemma {:induction false} WordBegins(s: string)
    requires AllSlugChars(s)
    ensures TrimDashesRight(Filtered(s, true)) == Joined(WordsFrom(s, ""))
    decreases |s|, 1
  {
    if s != [] {
      if s[0] == '-' {
        WordBegins(s[1..]);
        assert OneWord("") + WordsFrom(s[1..], "") == WordsFrom(s[1..], "");
      } else {
        WordContinues(s[1..], [s[0]]);
        assert "" + [s[0]] == [s[0]];
      }
    }
  }

  lemma {:induction false} LeftTrimForgets(s: string)
    requires AllSlugChars(s)
    ensures TrimDashesLeft(Filtered(s, false)) == Filtered(s, true)
  {
    if s != [] && s[0] == '-' {
      FilteredHasSingleDashes(s[1..], true);
      assert Filtered(s, false)[1..] == Filtered(s[1..], true);
    }
  }

  lemma KeptIsSlugChars(s: string)
    ensures AllSlugChars(Kept(s))
  {
  }

  /** Filtering and trimming leave the words of what is kept. */
  lemma FilteredIsJoined(s: string)
    ensures TrimDashes(Filtered(s, false)) == Joined(WordsFrom(Kept(s), ""))
  {
    KeptIsSlugChars(s);
    FilteringKeeps(s, false);
    LeftTrimForgets(Kept(s));
    WordBegins(Kept(s));
  }

  // Replacing spells

  /** The five replacements. */
  function Replaced(s: string): string {
    ReplaceAll(ReplaceAll(ReplaceAll(ReplaceAll(ReplaceAll(s, '\'', ""), '"', ""), '&', " and "), '_', "-"), ' ', "-")
  }

  lemma {:induction false} ReplacingInSequence(a: string, b: string, c: char, text: string)
    ensures ReplaceAll(a + b, c, text) == ReplaceAll(a, c, text) + ReplaceAll(b, c, text)
  {
    if a == [] {
      assert a + b == b;
    } else {
      ReplacingInSequence(a[1..], b, c, text);
      assert (a + b)[0] == a[0] && (a + b)[1..] == a[1..] + b;
      Associated(if a[0] == c then text else [a[0]], ReplaceAll(a[1..], c, text), ReplaceAll(b, c, text));
    }
  }

  lemma ReplacedInSequence(a: string, b: string)
    ensures Replaced(a + b) == Replaced(a) + Replaced(b)
  {
    ReplacingInSequence(a, b, '\'', "");
    var a1, b1 := ReplaceAll(a, '\'', ""), ReplaceAll(b, '\'', "");
    ReplacingInSequence(a1, b1, '"', "");
    var a2, b2 := ReplaceAll(a1, '"', ""), ReplaceAll(b1, '"', "");
    ReplacingInSequence(a2, b2, '&', " and ");
    var a3, b3 := ReplaceAll(a2, '&', " and "), ReplaceAll(b2, '&', " and ");
    ReplacingInSequence(a3, b3, '_', "-");
    ReplacingInSequence(ReplaceAll(a3, '_', "-"), ReplaceAll(b3, '_', "-"), ' ', "-");
  }

  lemma ReplacingOne(x: char, c: char, text: string)
    ensures ReplaceAll([x], c, text) == if x == c then text else [x]
  {
    assert [x][1..] == [];
    assert ReplaceAll([x], c, text) == (if x == c then text else [x]) + ReplaceAll([], c, text);
  }

  lemma ReplacingNone(c: char, text: string)
    ensures ReplaceAll("", c, text) == ""
  {
  }

  lemma AndStays()
    ensures ReplaceAll(" and ", '_', "-") == " and " && ReplaceAll("and", ' ', "-") == "and"
  {
    NothingToReplace(" and ", '_', "-");
    NothingToReplace("and", ' ', "-");
  }

  lemma BetweenBlanks(word: string)
    requires ReplaceAll(word, ' ', "-") == word
    ensures ReplaceAll(" " + word + " ", ' ', "-") == "-" + word + "-"
  {
    ReplacingInSequence(" " + word, " ", ' ', "-");
    ReplacingInSequence(" ", word, ' ', "-");
    ReplacingOne(' ', ' ', "-");
  }

  lemma AndIsReplaced()
    ensures ReplaceAll(ReplaceAll(" and ", '_', "-"), ' ', "-") == "-and-"
  {
    AndStays();
    BetweenBlanks("and");
    AndBetweenBlanks();
  }

  lemma AndBetweenBlanks()
    ensures " " + "and" + " " == " and " && "-" + "and" + "-" == "-and-"
  {
  }

  lemma ReplacedOne(x: char)
    ensures Replaced([x]) == if x == '\'' || x == '"' then "" else if x == '&' then "-and-" else if x == '_' || x == ' ' then "-" else [x]
  {
    ReplacingOne(x, '\'', "");
    ReplacingOne(x, '"', "");
    ReplacingOne(x, '&', " and ");
    ReplacingOne(x, '_', "-");
    ReplacingOne(x, ' ', "-");
    ReplacingOne('-', ' ', "-");
    ReplacingNone('"', "");
    ReplacingNone('&', " and ");
    ReplacingNone('_', "-");
    ReplacingNone(' ', "-");
    AndIsReplaced();
  }

  lemma KeptOne(x: char)
    ensures Kept([x]) == if IsSlugChar(x) then [x] else []
  {
    assert [x][1..] == [];
  }

  lemma KeptAnd()
    ensures Kept("-and-") == "-and-"
  {
    SlugCharsStay("-and-");
  }

  lemma {:induction false} SlugCharsStay(s: string)
    requires AllSlugChars(s)
    ensures Kept(s) == s
  {
    if s != [] {
      SlugCharsStay(s[1..]);
    }
  }

  lemma OneIsSpelled(c: char)
    ensures Kept(Replaced([LowerChar(c)])) == Spelled(c)
  {
    var l := LowerChar(c);
    ReplacedOne(l);
    KeptOne(l);
    KeptOne('-');
    KeptAnd();
    assert Kept("") == "";
  }

  lemma {:induction false} ReplacedIsSpelled(s: string)
    ensures Kept(Replaced(Lower(s))) == SpelledAll(s)
  {
    if s == [] {
      assert Lower(s) == [];
      assert Replaced([]) == [];
    } else {
      assert Lower(s) == [LowerChar(s[0])] + Lower(s[1..]);
      ReplacedInSequence([LowerChar(s[0])], Lower(s[1..]));
      KeptInSequence(Replaced([LowerChar(s[0])]), Replaced(Lower(s[1..])));
      OneIsSpelled(s[0]);
      ReplacedIsSpelled(s[1..]);
    }
  }

  // Blanks at the ends say nothing

  lemma BlankIsSpelled(c: char)
    requires IsSpace(c)
    ensures Spelled(c) == "" || Spelled(c) == "-"
  {
  }

  lemma {:induction false} LeadingBlanks(s: string)
    ensures WordsFrom(SpelledAll(TrimLeft(s)), "") == WordsFrom(SpelledAll(s), "")
  {
    if s != [] && IsSpace(s[0]) {
      BlankIsSpelled(s[0]);
      LeadingBlanks(s[1..]);
      if Spelled(s[0]) == "-" {
        assert SpelledAll(s)[1..] == SpelledAll(s[1..]);
        assert OneWord("") + WordsFrom(SpelledAll(s[1..]), "") == WordsFrom(SpelledAll(s[1..]), "");
      } else {
        assert SpelledAll(s) == SpelledAll(s[1..]);
      }
    }
  }

  lemma {:induction false} EachInSequence(a: string, b: string, spell: char -> string)
    ensures Each(a + b, spell) == Each(a, spell) + Each(b, spell)
  {
    if a == [] {
      assert a + b == b;
    } else {
      EachInSequence(a[1..], b, spell);
      assert (a + b)[0] == a[0] && (a + b)[1..] == a[1..] + b;
      Associated(spell(a[0]), Each(a[1..], spell), Each(b, spell));
    }
  }

  lemma OneIsEach(c: char, spell: char -> string)
    ensures Each([c], spell) == spell(c)
  {
    assert [c][1..] == [] && Each([], spell) == [];
    assert Each([c], spell) == spell([c][0]) + Each([c][1..], spell);
  }

  lemma SpelledInSequence(a: string, b: string)
    ensures SpelledAll(a + b) == SpelledAll(a) + SpelledAll(b)
  {
    EachInSequence(a, b, Spelled);
  }

  lemma Associated(a: string, b: string, c: string)
    ensures a + (b + c) == (a + b) + c
  {
  }

  lemma {:induction false} TrailingDash(s: string, word: string)
    ensures WordsFrom(s + "-", word) == WordsFrom(s, word)
  {
    if s == [] {
      assert (s + "-")[1..] == [];
      assert WordsFrom(s + "-", word) == OneWord(word) + WordsFrom([], "");
    } else {
      assert (s + "-")[1..] == s[1..] + "-";
      TrailingDash(s[1..], if s[0] == '-' then "" else word + [s[0]]);
    }
  }

  lemma {:induction false} TrailingBlanks(s: string)
    ensures WordsFrom(SpelledAll(TrimRight(s)), "") == WordsFrom(SpelledAll(s), "")
    decreases |s|
  {
    if s != [] && IsSpace(s[|s| - 1]) {
      var init, last := s[..|s| - 1], s[|s| - 1];
      TrailingBlanks(init);
      assert s == init + [last];
      SpelledInSequence(init, [last]);
      OneIsEach(last, Spelled);
      BlankIsSpelled(last);
      if Spelled(last) == "-" {
        TrailingDash(SpelledAll(init), "");
        assert SpelledAll(s) == SpelledAll(init) + "-";
      } else {
        assert SpelledAll(s) == SpelledAll(init);
      }
    }
  }

  // The slug

  lemma CutIsTrimmed(s: string)
    requires SingleDashes(s) && (s != [] ==> s[0] != '-') && |s| > 64
    ensures TrimDashes(s[..64]) == Cut(s)
  {
    var t := s[..64];
    assert TrimDashesLeft(t) == t;
    if s[63] == '-' {
      assert t[..63] == s[..63];
      assert s[62] != '-';
      assert TrimDashesRight(s[..63]) == s[..63];
    }
  }

  /** Every title becomes its words, joined by dashes and cut at 64 characters. */
  lemma SlugIsJoinedWords(title: string)
    ensures Slug(title) == Cut(Joined(Words(title)))
  {
    var slug := TrimDashes(Filtered(Base(title), false));
    FilteredIsJoined(Base(title));
    ReplacedIsSpelled(TrimSpace(title));
    assert Base(title) == Replaced(Lower(TrimSpace(title)));
    TrailingBlanks(TrimLeft(title));
    LeadingBlanks(title);
    FilteredHasSingleDashes(Base(title), false);
    TrimmedDashes(Filtered(Base(title), false));
    if |slug| > 64 {
      CutIsTrimmed(slug);
    }
  }
}
