/** buildEventSlug of backend/api/events.go. */
module EventSlug {
  import opened Text

  /** strings.ReplaceAll for a one-character pattern */
  function ReplaceAll(s: string, c: char, text: string): string {
    if s == [] then [] else (if s[0] == c then text else [s[0]]) + ReplaceAll(s[1..], c, text)
  }

  function Base(title: string): string {
    var s := Lower(TrimSpace(title));
    var s := ReplaceAll(s, '\'', "");
    var s := ReplaceAll(s, '"', "");
    var s := ReplaceAll(s, '&', " and ");
    var s := ReplaceAll(s, '_', "-");
    ReplaceAll(s, ' ', "-")
  }

  predicate IsAlnum(c: char) {
    'a' <= c <= 'z' || '0' <= c <= '9'
  }

  /** Letters, digits, and the first of each run of dashes. */
  function Filtered(s: string, lastDash: bool): string {
    if s == [] then []
    else if IsAlnum(s[0]) then [s[0]] + Filtered(s[1..], false)
    else if s[0] == '-' && !lastDash then "-" + Filtered(s[1..], true)
    else Filtered(s[1..], lastDash)
  }

  function TrimDashesLeft(s: string): string {
    if s != [] && s[0] == '-' then TrimDashesLeft(s[1..]) else s
  }

  function TrimDashesRight(s: string): string {
    if s != [] && s[|s| - 1] == '-' then TrimDashesRight(s[..|s| - 1]) else s
  }

  /** strings.Trim(s, "-") */
  function TrimDashes(s: string): string {
    TrimDashesRight(TrimDashesLeft(s))
  }

  const MAX_LENGTH := 64

  function Slug(title: string): string {
    var slug := TrimDashes(Filtered(Base(title), false));
    if |slug| > MAX_LENGTH then TrimDashes(slug[..MAX_LENGTH]) else slug
  }

  method BuildEventSlug(title: string) returns (slug: string)
    ensures slug == Slug(title)
    ensures IsSlugWord(slug)
  {
    var base := Base(title);
    var filtered, lastDash := "", false;
    for i := 0 to |base|
      invariant filtered + Filtered(base[i..], lastDash) == Filtered(base, false)
    {
      assert base[i..][1..] == base[i + 1..];
      var ch := base[i];
      if IsAlnum(ch) {
        filtered := filtered + [ch];
        lastDash := false;
        continue;
      }
      if ch == '-' && !lastDash {
        filtered := filtered + ['-'];
        lastDash := true;
      }
    }
    assert base[|base|..] == "" && filtered + "" == filtered;
    slug := TrimDashes(filtered);
    if |slug| > MAX_LENGTH {
      slug := slug[..MAX_LENGTH];
      slug := TrimDashes(slug);
    }
    SlugIsWord(title);
  }

  // The normal form

  predicate IsSlugChar(c: char) {
    IsAlnum(c) || c == '-'
  }

  predicate SingleDashes(s: string) {
    && (forall i | 0 <= i < |s| :: IsSlugChar(s[i]))
    && (forall i | 0 <= i < |s| - 1 :: s[i] == '-' ==> s[i + 1] != '-')
  }

  /** Words over a-z, 0-9 and '-', of at most 64 characters, without leading, trailing or doubled dashes. */
  predicate IsSlugWord(s: string) {
    && SingleDashes(s)
    && |s| <= MAX_LENGTH
    && (s != [] ==> s[0] != '-' && s[|s| - 1] != '-')
  }

  lemma {:induction false} FilteredHasSingleDashes(s: string, lastDash: bool)
    ensures SingleDashes(Filtered(s, lastDash))
    ensures lastDash && Filtered(s, lastDash) != [] ==> Filtered(s, lastDash)[0] != '-'
  {
    if s != [] {
      FilteredHasSingleDashes(s[1..], if IsAlnum(s[0]) then false else if s[0] == '-' then true else lastDash);
      if s[0] == '-' && !lastDash {
        var f := Filtered(s, lastDash);
        assert f[1..] == Filtered(s[1..], true);
      }
    }
  }

  lemma {:induction false} LeftTrimmed(s: string)
    requires SingleDashes(s)
    ensures SingleDashes(TrimDashesLeft(s)) && |TrimDashesLeft(s)| <= |s|
    ensures TrimDashesLeft(s) != [] ==> TrimDashesLeft(s)[0] != '-'
  {
    if s != [] && s[0] == '-' {
      assert forall i | 0 <= i < |s[1..]| :: s[1..][i] == s[i + 1];
      LeftTrimmed(s[1..]);
    }
  }

  lemma {:induction false} RightTrimmed(s: string)
    requires SingleDashes(s) && (s != [] ==> s[0] != '-')
    ensures var t := TrimDashesRight(s);
            SingleDashes(t) && |t| <= |s| && (t != [] ==> t[0] != '-' && t[|t| - 1] != '-')
  {
    if s != [] && s[|s| - 1] == '-' {
      RightTrimmed(s[..|s| - 1]);
    }
  }

  lemma TrimmedDashes(s: string)
    requires SingleDashes(s)
    ensures var t := TrimDashes(s);
            SingleDashes(t) && |t| <= |s| && (t != [] ==> t[0] != '-' && t[|t| - 1] != '-')
  {
    LeftTrimmed(s);
    RightTrimmed(TrimDashesLeft(s));
  }

  /** Every title gives a slug word, even when it is cut off. */
  lemma SlugIsWord(title: string)
    ensures IsSlugWord(Slug(title))
  {
    var filtered := Filtered(Base(title), false);
    FilteredHasSingleDashes(Base(title), false);
    TrimmedDashes(filtered);
    var slug := TrimDashes(filtered);
    if |slug| > MAX_LENGTH {
      TrimmedDashes(slug[..MAX_LENGTH]);
    }
  }

  lemma {:induction false} NothingToReplace(s: string, c: char, text: string)
    requires c !in s
    ensures ReplaceAll(s, c, text) == s
  {
    if s != [] {
      NothingToReplace(s[1..], c, text);
    }
  }

  lemma {:induction false} NothingToFilter(s: string, lastDash: bool)
    requires SingleDashes(s) && (lastDash && s != [] ==> s[0] != '-')
    ensures Filtered(s, lastDash) == s
  {
    if s != [] {
      assert forall i | 0 <= i < |s[1..]| :: s[1..][i] == s[i + 1];
      NothingToFilter(s[1..], s[0] == '-');
    }
  }

  lemma WordIsTrimmedAndLower(s: string)
    requires IsSlugWord(s)
    ensures TrimSpace(s) == s && Lower(s) == s
  {
    assert Trimmed(s);
    TrimmedIsFixed(s);
    assert forall i | 0 <= i < |s| :: LowerChar(s[i]) == s[i];
  }

  lemma WordHasNoSpecials(s: string)
    requires IsSlugWord(s)
    ensures '\'' !in s && '"' !in s && '&' !in s && '_' !in s && ' ' !in s
  {
    forall c | c in s ensures IsSlugChar(c) {
    }
  }

  lemma WordIsItsBase(s: string)
    requires IsSlugWord(s)
    ensures Base(s) == s
  {
    WordIsTrimmedAndLower(s);
    WordHasNoSpecials(s);
    NothingToReplace(s, '\'', "");
    NothingToReplace(s, '"', "");
    NothingToReplace(s, '&', " and ");
    NothingToReplace(s, '_', "-");
    NothingToReplace(s, ' ', "-");
  }

  /** The slug words are exactly the titles that are their own slug. */
  lemma FixedIffWord(s: string)
    ensures Slug(s) == s <==> IsSlugWord(s)
  {
    SlugIsWord(s);
    if IsSlugWord(s) {
      WordIsItsBase(s);
      NothingToFilter(s, false);
      assert TrimDashesLeft(s) == s;
    }
  }

  /** So slugging twice changes nothing. */
  lemma SlugIsIdempotent(title: string)
    ensures Slug(Slug(title)) == Slug(title)
  {
    SlugIsWord(title);
    FixedIffWord(Slug(title));
  }
}
