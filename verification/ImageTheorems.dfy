/** The image search compares a new name with the trimmed form of the one it has. A visiting order ends with a best image
    exactly when it never takes a name that scores less than the best while its trimmed form scores as much. */
module ImageTheorems {
  import opened Text
  import opened Json
  import opened CandidateSearch
  import opened CandidateTheorems

  // Trimming never lowers a score

  predicate Solid(s: string) {
    s != [] && forall i | 0 <= i < |s| :: '!' <= s[i] <= '~'
  }

  lemma {:induction false} TrimLeftKeepsWord(u: string, word: string)
    requires Solid(word)
    ensures Contains(Lower(u), word) <==> Contains(Lower(TrimLeft(u)), word)
  {
    if u != [] && IsSpace(u[0]) {
      TrimLeftKeepsWord(u[1..], word);
      BlankHeadHidesNothing(u, word);
    }
  }

  lemma BlankHeadHidesNothing(u: string, word: string)
    requires Solid(word) && u != [] && IsSpace(u[0])
    ensures Contains(Lower(u), word) <==> Contains(Lower(u[1..]), word)
  {
    var low := Lower(u);
    assert low[1..] == Lower(u[1..]);
    if Contains(low, word) {
      var i :| 0 <= i <= |low| - |word| && OccursAt(low, word, i);
      OccursAfterBlank(low, word, i);
    }
    if Contains(low[1..], word) {
      var i :| 0 <= i <= |low[1..]| - |word| && OccursAt(low[1..], word, i);
      OccursOneLater(low, word, i);
    }
  }

  lemma OccursAfterBlank(low: string, word: string, i: int)
    requires Solid(word) && low != [] && IsSpace(low[0]) && OccursAt(low, word, i)
    ensures i > 0 && OccursAt(low[1..], word, i - 1)
  {
    assert low[i..i + |word|][0] == low[i];
    assert low[1..][i - 1..i - 1 + |word|] == low[i..i + |word|];
  }

  lemma OccursOneLater(low: string, word: string, i: int)
    requires low != [] && OccursAt(low[1..], word, i)
    ensures OccursAt(low, word, i + 1)
  {
    assert low[1..][i..i + |word|] == low[i + 1..i + 1 + |word|];
  }

  lemma {:induction false} TrimRightKeepsWord(u: string, word: string)
    requires Solid(word)
    ensures Contains(Lower(u), word) <==> Contains(Lower(TrimRight(u)), word)
  {
    if u != [] && IsSpace(u[|u| - 1]) {
      TrimRightKeepsWord(u[..|u| - 1], word);
      BlankTailHidesNothing(u, word);
    }
  }

  lemma BlankTailHidesNothing(u: string, word: string)
    requires Solid(word) && u != [] && IsSpace(u[|u| - 1])
    ensures Contains(Lower(u), word) <==> Contains(Lower(u[..|u| - 1]), word)
  {
    var low, front := Lower(u), Lower(u[..|u| - 1]);
    assert low[..|low| - 1] == front;
    if Contains(low, word) {
      var i :| 0 <= i <= |low| - |word| && OccursAt(low, word, i);
      OccursBeforeBlank(low, word, i);
    }
    if Contains(front, word) {
      var i :| 0 <= i <= |front| - |word| && OccursAt(front, word, i);
      assert front[i..i + |word|] == low[i..i + |word|];
      assert OccursAt(low, word, i);
    }
  }

  lemma OccursBeforeBlank(low: string, word: string, i: int)
    requires Solid(word) && low != [] && IsSpace(low[|low| - 1]) && OccursAt(low, word, i)
    ensures OccursAt(low[..|low| - 1], word, i)
  {
    assert low[i..i + |word|][|word| - 1] == low[i + |word| - 1];
    assert low[..|low| - 1][i..i + |word|] == low[i..i + |word|];
  }

  lemma TrimKeepsWord(u: string, word: string)
    requires Solid(word)
    ensures Contains(Lower(u), word) <==> Contains(Lower(TrimSpace(u)), word)
  {
    TrimLeftKeepsWord(u, word);
    TrimRightKeepsWord(TrimLeft(u), word);
  }

  lemma {:induction false} TrimKeepsWords(u: string, words: seq<string>)
    requires forall i | 0 <= i < |words| :: Solid(words[i])
    ensures Occurring(Lower(u), words) == Occurring(Lower(TrimSpace(u)), words)
  {
    if words != [] {
      TrimKeepsWord(u, words[0]);
      TrimKeepsWords(u, words[1..]);
    }
  }

  lemma CoverWordsAreSolid()
    ensures forall i | 0 <= i < |COVER_WORDS| :: Solid(COVER_WORDS[i])
  {
    assert Solid("gallery-images") && Solid("width=300") && Solid("height=300") && Solid("fit=cover");
    assert Solid("event-cover") && Solid("event_cover") && Solid("event-covers") && Solid("cover");
    assert Solid("square") && Solid("share") && Solid("social");
  }

  lemma PersonWordsAreSolid()
    ensures forall i | 0 <= i < |PERSON_WORDS| :: Solid(PERSON_WORDS[i])
  {
    assert Solid("avatar") && Solid("avatars") && Solid("profile") && Solid("user") && Solid("host");
    assert Solid("speaker") && Solid("logo");
  }

  lemma TrimKeepsCovers(u: string)
    ensures Occurring(Lower(u), COVER_WORDS) == Occurring(Lower(TrimSpace(u)), COVER_WORDS)
  {
    CoverWordsAreSolid();
    TrimKeepsWords(u, COVER_WORDS);
  }

  lemma TrimKeepsPersons(u: string)
    ensures Occurring(Lower(u), PERSON_WORDS) == Occurring(Lower(TrimSpace(u)), PERSON_WORDS)
  {
    PersonWordsAreSolid();
    TrimKeepsWords(u, PERSON_WORDS);
  }

  lemma BonusWordsAreSolid()
    ensures Solid("lumacdn.com/event-covers") && Solid("lumacdn.com/gallery-images")
    ensures Solid("width=300") && Solid("height=300")
  {
  }

  lemma TrimKeepsWordScore(u: string)
    ensures WordScore(Lower(u)) == WordScore(Lower(TrimSpace(u)))
  {
    TrimKeepsCovers(u);
    TrimKeepsPersons(u);
    BonusWordsAreSolid();
    TrimKeepsWord(u, "lumacdn.com/event-covers");
    TrimKeepsWord(u, "lumacdn.com/gallery-images");
    TrimKeepsWord(u, "width=300");
    TrimKeepsWord(u, "height=300");
  }

  lemma {:induction false} TrimLeftKeepsSuffix(u: string, suffix: string)
    requires Solid(suffix) && HasSuffix(Lower(u), suffix)
    ensures HasSuffix(Lower(TrimLeft(u)), suffix)
  {
    if u != [] && IsSpace(u[0]) {
      SuffixAfterBlank(Lower(u), suffix);
      assert Lower(u)[1..] == Lower(u[1..]);
      TrimLeftKeepsSuffix(u[1..], suffix);
    }
  }

  lemma SuffixAfterBlank(low: string, suffix: string)
    requires Solid(suffix) && HasSuffix(low, suffix) && low != [] && IsSpace(low[0])
    ensures HasSuffix(low[1..], suffix)
  {
    var k := |low| - |suffix|;
    assert low[k..][0] == low[k];
    assert low[1..][k - 1..] == low[k..];
  }

  lemma TrimKeepsSuffix(u: string, suffix: string)
    requires Solid(suffix) && HasSuffix(Lower(u), suffix)
    ensures HasSuffix(Lower(TrimSpace(u)), suffix)
  {
    TrimLeftKeepsSuffix(u, suffix);
    var v := TrimLeft(u);
    assert Lower(v)[|v| - |suffix|..][|suffix| - 1] == Lower(v)[|v| - 1];
  }

  lemma TrimKeepsImageFile(u: string)
    ensures IsImageFile(Lower(u)) ==> IsImageFile(Lower(TrimSpace(u)))
  {
    assert Solid(".jpg") && Solid(".jpeg") && Solid(".png") && Solid(".webp");
    if HasSuffix(Lower(u), ".jpg") { TrimKeepsSuffix(u, ".jpg"); }
    if HasSuffix(Lower(u), ".jpeg") { TrimKeepsSuffix(u, ".jpeg"); }
    if HasSuffix(Lower(u), ".png") { TrimKeepsSuffix(u, ".png"); }
    if HasSuffix(Lower(u), ".webp") { TrimKeepsSuffix(u, ".webp"); }
  }

  /** No name, or one with more than blanks in it. */
  predicate Presentable(url: string) {
    url == "" || TrimSpace(url) != ""
  }

  /** So trimming a name keeps its score or adds the bonus for an image file. */
  lemma TrimmingScoresNoLess(url: string)
    requires Presentable(url)
    ensures ImageScore(url) <= ImageScore(TrimSpace(url))
  {
    if url != "" {
      TrimKeepsWordScore(url);
      TrimKeepsImageFile(url);
    }
  }

  // The search

  function PictureOf(n: Normalizers, c: Candidate): string {
    if c.Pictured? then NormalizeImage(n, c.raw) else ""
  }

  lemma PrefixHead()
    ensures |GALLERY_PREFIX| > 0 && GALLERY_PREFIX[0] == 'h'
  {
    assert "https://images.lumacdn.com/cdn-cgi/image/"[0] == 'h';
  }

  lemma PicturesArePresentable(n: Normalizers, c: Candidate)
    ensures Presentable(PictureOf(n, c))
  {
    var url := PictureOf(n, c);
    if url != "" {
      TrimSpaceIsTrimmed(c.raw);
      if url == TrimSpace(c.raw) {
        TrimmedIsFixed(url);
      } else {
        PrefixHead();
        assert url[..|GALLERY_PREFIX|] == GALLERY_PREFIX;
        assert url[0] == GALLERY_PREFIX[0];
        VisibleHeadStays(url);
      }
    }
  }

  lemma VisibleHeadStays(s: string)
    requires s != [] && !IsSpace(s[0])
    ensures TrimSpace(s) != []
  {
    assert TrimLeft(s) == s;
    HeadStays(s);
  }

  lemma {:induction false} HeadStays(s: string)
    requires s != [] && !IsSpace(s[0])
    ensures TrimRight(s) != []
  {
    if IsSpace(s[|s| - 1]) {
      HeadStays(s[..|s| - 1]);
    }
  }

  /** The image alone, over a list of candidates. */
  function ImageAfter(n: Normalizers, image: string, order: seq<Candidate>): string
    decreases order
  {
    if order == [] then image else ImageAfter(n, BetterImage(n, image, order[0]), order[1..])
  }

  lemma {:induction false} SearchKeepsImage(n: Normalizers, s: Found, order: seq<Candidate>)
    ensures ApplyAll(n, s, order).image == ImageAfter(n, s.image, order)
    decreases order
  {
    if order != [] {
      SearchKeepsImage(n, Apply(n, s, order[0]), order[1..]);
    }
  }

  /** The name scores less than the best, but once chosen it passes for one that does not. */
  predicate Masks(url: string, best: int) {
    ImageScore(url) < best <= ImageScore(TrimSpace(url))
  }

  ghost predicate NoneBeats(n: Normalizers, order: seq<Candidate>, best: int) {
    forall c | c in order :: ImageScore(PictureOf(n, c)) <= best
  }

  ghost predicate NoneMasks(n: Normalizers, order: seq<Candidate>, best: int) {
    forall c | c in order :: !Masks(PictureOf(n, c), best)
  }

  ghost predicate SomeReaches(n: Normalizers, order: seq<Candidate>, best: int) {
    exists c | c in order :: ImageScore(PictureOf(n, c)) == best
  }

  lemma {:induction false} FewOccur(low: string, words: seq<string>)
    ensures Occurring(low, words) <= |words|
  {
    if words != [] {
      FewOccur(low, words[1..]);
    }
  }

  lemma AnyNameBeatsNone(url: string)
    requires url != ""
    ensures ImageScore(url) > ImageScore("")
  {
    FewOccur(Lower(url), PERSON_WORDS);
  }

  /** One turn keeps an unmasked image unmasked, and takes a best name when it meets one. */
  lemma UnmaskedTurn(n: Normalizers, image: string, c: Candidate, best: int)
    requires Presentable(image) && ImageScore(image) <= best && !Masks(image, best)
    requires ImageScore(PictureOf(n, c)) <= best && !Masks(PictureOf(n, c), best)
    ensures var next := BetterImage(n, image, c);
            && Presentable(next) && ImageScore(next) <= best && !Masks(next, best)
            && (next == image || next == PictureOf(n, c))
            && (ImageScore(image) == best || ImageScore(PictureOf(n, c)) == best ==> ImageScore(next) == best)
  {
    TrimmingScoresNoLess(image);
    PicturesArePresentable(n, c);
    if image != "" {
      AnyNameBeatsNone(image);
    }
  }

  /** Without a mask the search ends with a best image, chosen from the start and the candidates. */
  lemma {:induction false} UnmaskedSearchReachesBest(n: Normalizers, image: string, order: seq<Candidate>, best: int)
    requires Presentable(image) && ImageScore(image) <= best && !Masks(image, best)
    requires NoneBeats(n, order, best) && NoneMasks(n, order, best)
    requires ImageScore(image) == best || SomeReaches(n, order, best)
    ensures ImageScore(ImageAfter(n, image, order)) == best
    ensures ImageAfter(n, image, order) == image || exists c | c in order :: PictureOf(n, c) == ImageAfter(n, image, order)
    decreases order
  {
    if order != [] {
      var next := BetterImage(n, image, order[0]);
      UnmaskedTurn(n, image, order[0], best);
      if ImageScore(next) != best {
        assert SomeReaches(n, order[1..], best) by {
          var c :| c in order && ImageScore(PictureOf(n, c)) == best;
          assert c != order[0];
        }
      }
      UnmaskedSearchReachesBest(n, next, order[1..], best);
    }
  }

  lemma {:induction false} MaskStays(n: Normalizers, image: string, order: seq<Candidate>, best: int)
    requires Masks(image, best) && NoneBeats(n, order, best)
    ensures ImageAfter(n, image, order) == image
    decreases order
  {
    if order != [] {
      assert order[0] in order && forall c | c in order[1..] :: c in order;
      MaskStays(n, image, order[1..], best);
    }
  }

  /** At index i the search takes a masking name. */
  ghost predicate MaskedAt(n: Normalizers, image: string, order: seq<Candidate>, best: int, i: nat) {
    && i < |order| && Masks(PictureOf(n, order[i]), best)
    && ImageScore(TrimSpace(ImageAfter(n, image, order[..i]))) < ImageScore(PictureOf(n, order[i]))
  }

  ghost predicate NeverMasked(n: Normalizers, image: string, order: seq<Candidate>, best: int) {
    forall i: nat :: !MaskedAt(n, image, order, best, i)
  }

  lemma MaskedLater(n: Normalizers, image: string, order: seq<Candidate>, best: int, i: nat)
    requires order != []
    ensures MaskedAt(n, image, order, best, i + 1) <==> MaskedAt(n, BetterImage(n, image, order[0]), order[1..], best, i)
  {
    if i + 1 <= |order| {
      assert order[..i + 1][1..] == order[1..][..i];
    }
  }

  lemma MaskedNowOrLater(n: Normalizers, image: string, order: seq<Candidate>, best: int)
    requires order != []
    ensures NeverMasked(n, image, order, best) <==>
              !MaskedAt(n, image, order, best, 0) && NeverMasked(n, BetterImage(n, image, order[0]), order[1..], best)
  {
    var next, rest := BetterImage(n, image, order[0]), order[1..];
    if NeverMasked(n, image, order, best) {
      forall i: nat ensures !MaskedAt(n, next, rest, best, i) {
        MaskedLater(n, image, order, best, i);
      }
    }
    if !MaskedAt(n, image, order, best, 0) && NeverMasked(n, next, rest, best) {
      forall i: nat ensures !MaskedAt(n, image, order, best, i) {
        if i > 0 {
          MaskedLater(n, image, order, best, i - 1);
        }
      }
    }
  }

  /** One turn, from an image that masks nothing: it takes a mask, or keeps what the search needs. */
  lemma AnyTurn(n: Normalizers, image: string, order: seq<Candidate>, best: int)
    requires order != [] && Presentable(image) && ImageScore(image) <= best && !Masks(image, best)
    requires ImageScore(PictureOf(n, order[0])) <= best
    ensures var next := BetterImage(n, image, order[0]);
            && Presentable(next) && ImageScore(next) <= best
            && (Masks(next, best) <==> MaskedAt(n, image, order, best, 0))
            && (ImageScore(image) == best || ImageScore(PictureOf(n, order[0])) == best ==> ImageScore(next) == best)
  {
    TrimmingScoresNoLess(image);
    PicturesArePresentable(n, order[0]);
    if image != "" {
      AnyNameBeatsNone(image);
    }
    if PictureOf(n, order[0]) != "" {
      AnyNameBeatsNone(PictureOf(n, order[0]));
    }
    assert order[..0] == [];
  }

  /** From an image that masks nothing, an order ends with a best image if and only if it never takes a masking name. */
  lemma {:induction false} ImageSearchIsBestIff(n: Normalizers, image: string, order: seq<Candidate>, best: int)
    requires Presentable(image) && ImageScore(image) <= best && !Masks(image, best) && NoneBeats(n, order, best)
    requires ImageScore(image) == best || SomeReaches(n, order, best)
    ensures ImageScore(ImageAfter(n, image, order)) == best <==> NeverMasked(n, image, order, best)
    decreases order
  {
    if order != [] {
      var next, rest := BetterImage(n, image, order[0]), order[1..];
      assert order[0] in order && forall c | c in rest :: c in order;
      AnyTurn(n, image, order, best);
      MaskedNowOrLater(n, image, order, best);
      if Masks(next, best) {
        MaskStays(n, next, rest, best);
      } else {
        StillToReach(n, next, order, best);
        ImageSearchIsBestIff(n, next, rest, best);
      }
    }
  }

  lemma StillToReach(n: Normalizers, next: string, order: seq<Candidate>, best: int)
    requires order != [] && (ImageScore(PictureOf(n, order[0])) == best ==> ImageScore(next) == best)
    requires ImageScore(next) != best ==> SomeReaches(n, order, best)
    ensures ImageScore(next) == best || SomeReaches(n, order[1..], best)
  {
    if ImageScore(next) != best {
      var c :| c in order && ImageScore(PictureOf(n, c)) == best;
      assert c != order[0];
      assert c in order[1..];
    }
  }

  /** Once a name that scores or passes for the best has been met, no masking name is taken any more. */
  lemma {:induction false} NoMaskAfterBest(n: Normalizers, image: string, order: seq<Candidate>, best: int, i: nat)
    requires NoneBeats(n, order, best) && best <= ImageScore(TrimSpace(image))
    ensures !MaskedAt(n, image, order, best, i)
    decreases order
  {
    if order != [] {
      assert order[0] in order && forall c | c in order[1..] :: c in order;
      assert order[..0] == [];
      if i > 0 {
        MaskedLater(n, image, order, best, i - 1);
        NoMaskAfterBest(n, image, order[1..], best, i - 1);
      }
    }
  }

  // Documents

  /** best is the highest score in the document, and the image at the start neither beats nor masks it. */
  ghost predicate BestOf(n: Normalizers, node: Json, image: string, best: int) {
    && Presentable(image) && ImageScore(image) < best && !Masks(image, best)
    && (forall c | Offered(node, c) :: ImageScore(PictureOf(n, c)) <= best)
    && (exists c :: Offered(node, c) && ImageScore(PictureOf(n, c)) == best)
  }

  lemma TraversalReachesBest(n: Normalizers, node: Json, image: string, order: seq<Candidate>, best: int)
    requires BestOf(n, node, image, best) && Traversal(node, order)
    ensures NoneBeats(n, order, best) && SomeReaches(n, order, best)
  {
    forall c ensures c in order <==> Offered(node, c) {
      TraversalMeetsAll(node, order, c);
    }
  }

  /** Every traversal of a document ends with a best image if and only if no traversal takes a masking name. */
  lemma DocumentIsBestIff(n: Normalizers, node: Json, s: Found, best: int)
    requires BestOf(n, node, s.image, best)
    ensures (forall order | Traversal(node, order) :: ImageScore(ApplyAll(n, s, order).image) == best)
       <==> (forall order | Traversal(node, order) :: NeverMasked(n, s.image, order, best))
  {
    forall order | Traversal(node, order)
      ensures ImageScore(ApplyAll(n, s, order).image) == best <==> NeverMasked(n, s.image, order, best)
    {
      TraversalReachesBest(n, node, s.image, order, best);
      SearchKeepsImage(n, s, order);
      ImageSearchIsBestIff(n, s.image, order, best);
    }
  }

  /** In particular when the document offers no masking name at all; and then every traversal ends with the same image when
      only one name attains the score. */
  lemma ImageIsOrderIndependent(n: Normalizers, node: Json, s: Found, a: seq<Candidate>, b: seq<Candidate>, best: int)
    requires Traversal(node, a) && Traversal(node, b) && BestOf(n, node, s.image, best)
    requires forall c | Offered(node, c) :: !Masks(PictureOf(n, c), best)
    ensures ImageScore(ApplyAll(n, s, a).image) == best && ImageScore(ApplyAll(n, s, b).image) == best
    ensures (forall c, d | Offered(node, c) && Offered(node, d) ::
               ImageScore(PictureOf(n, c)) == best && ImageScore(PictureOf(n, d)) == best ==> PictureOf(n, c) == PictureOf(n, d))
            ==> ApplyAll(n, s, a).image == ApplyAll(n, s, b).image
  {
    TraversalsMeetAll(node, a, b);
    SearchKeepsImage(n, s, a);
    SearchKeepsImage(n, s, b);
    UnmaskedSearchReachesBest(n, s.image, a, best);
    UnmaskedSearchReachesBest(n, s.image, b, best);
  }

  // A mask

  /** A percent-encoded blank at the end of a gallery path survives normalization. */
  lemma DecodedBlankStays(n: Normalizers, raw: string, name: string)
    requires TrimSpace(raw) != ""
    requires n.parseUrl(TrimSpace(raw)) == Some(Url("images.lumacdn.com", GALLERY + name))
    ensures NormalizeImage(n, raw) == GALLERY_PREFIX + (GALLERY + name)
  {
    var host, path := "images.lumacdn.com", GALLERY + name;
    assert Lower(host) == host;
    assert OccursAt(host, "images.lumacdn.com", 0);
    assert path[0..|GALLERY|] == GALLERY;
    assert OccursAt(path, GALLERY, 0);
  }

  /** A name with a blank after its extension loses the bonus its trimmed form has. */
  lemma PaddedScoresLess(name: string)
    requires Trimmed(name) && HasSuffix(Lower(name), ".jpg")
    ensures TrimSpace(name + " ") == name && ImageScore(name + " ") == ImageScore(name) - 5
    ensures Masks(name + " ", ImageScore(name))
  {
    var padded := name + " ";
    assert padded[..|name|] == name;
    assert TrimLeft(padded) == padded;
    TrimmedIsFixed(name);
    assert TrimSpace(padded) == name;
    TrimKeepsWordScore(padded);
    assert Lower(padded)[|name|] == ' ';
  }

  /** A search that meets both: the first one met stays. */
  lemma FirstOfTwoStays(n: Normalizers, padded: Candidate, plain: Candidate, name: string)
    requires Trimmed(name) && HasSuffix(Lower(name), ".jpg")
    requires PictureOf(n, padded) == name + " " && PictureOf(n, plain) == name
    ensures ImageAfter(n, "", [padded, plain]) == name + " " && ImageAfter(n, "", [plain, padded]) == name
    ensures ImageScore(name + " ") < ImageScore(name)
  {
    PaddedScoresLess(name);
    TrimmedIsFixed(name);
    AnyNameBeatsNone(name);
    AnyNameBeatsNone(name + " ");
    assert ImageAfter(n, "", [padded, plain]) == ImageAfter(n, name + " ", [plain]);
    assert ImageAfter(n, name + " ", [plain]) == ImageAfter(n, name + " ", []);
    assert ImageAfter(n, "", [plain, padded]) == ImageAfter(n, name, [padded]);
    assert ImageAfter(n, name, [padded]) == ImageAfter(n, name, []);
  }

  // Documents with a mask

  lemma {:induction false} NoImagesWithout(m: map<string, Json>, keys: seq<string>)
    requires forall i | 0 <= i < |keys| :: keys[i] !in m
    ensures ImageCandidates(m, keys) == []
  {
    if keys != [] {
      NoImagesWithout(m, keys[1..]);
    }
  }

  lemma {:induction false} NoDescriptionsWithout(m: map<string, Json>, keys: seq<string>)
    requires forall i | 0 <= i < |keys| :: keys[i] !in m
    ensures DescriptionCandidates(m, keys) == []
  {
    if keys != [] {
      NoDescriptionsWithout(m, keys[1..]);
    }
  }

  lemma {:induction false} ImagesInTurn(m: map<string, Json>, a: seq<string>, b: seq<string>)
    ensures ImageCandidates(m, a + b) == ImageCandidates(m, a) + ImageCandidates(m, b)
  {
    if a == [] {
      assert a + b == b;
    } else {
      assert (a + b)[1..] == a[1..] + b;
      ImagesInTurn(m, a[1..], b);
    }
  }

  const SITE := "https://images.lumacdn.com"
  const PADDED_RAW := SITE + (GALLERY + "a.jpg%20")
  const PLAIN_RAW := SITE + (GALLERY + "a.jpg")
  const NAME := GALLERY_PREFIX + (GALLERY + "a.jpg")

  /** How url.Parse reads the two addresses: the path comes back percent-decoded. */
  ghost predicate ReadsBoth(n: Normalizers) {
    && n.parseUrl(TrimSpace(PADDED_RAW)) == Some(Url("images.lumacdn.com", GALLERY + "a.jpg "))
    && n.parseUrl(TrimSpace(PLAIN_RAW)) == Some(Url("images.lumacdn.com", GALLERY + "a.jpg"))
  }

  lemma RawsAreVisible()
    ensures TrimSpace(PADDED_RAW) != "" && TrimSpace(PLAIN_RAW) != ""
  {
    assert SITE[0] == 'h';
    VisibleHeadShows(SITE, GALLERY + "a.jpg%20");
    VisibleHeadShows(SITE, GALLERY + "a.jpg");
  }

  lemma VisibleHeadShows(head: string, tail: string)
    requires head != "" && !IsSpace(head[0])
    ensures TrimSpace(head + tail) != ""
  {
    VisibleHeadStays(head + tail);
  }

  lemma PaddedIsPlainAndBlank(prefix: string)
    ensures prefix + (GALLERY + "a.jpg ") == prefix + (GALLERY + "a.jpg") + " "
  {
    assert GALLERY + "a.jpg " == GALLERY + "a.jpg" + " ";
  }

  lemma BothPictures(n: Normalizers)
    requires ReadsBoth(n)
    ensures PictureOf(n, Pictured(PADDED_RAW)) == NAME + " " && PictureOf(n, Pictured(PLAIN_RAW)) == NAME
  {
    RawsAreVisible();
    DecodedBlankStays(n, PADDED_RAW, "a.jpg ");
    DecodedBlankStays(n, PLAIN_RAW, "a.jpg");
    PaddedIsPlainAndBlank(GALLERY_PREFIX);
  }

  lemma BothNames(n: Normalizers)
    requires ReadsBoth(n)
    ensures PictureOf(n, Pictured(PADDED_RAW)) == NAME + " " && PictureOf(n, Pictured(PLAIN_RAW)) == NAME
    ensures Trimmed(NAME) && HasSuffix(Lower(NAME), ".jpg")
  {
    BothPictures(n);
    NameIsImage();
  }

  lemma NameIsImage()
    ensures Trimmed(NAME) && HasSuffix(Lower(NAME), ".jpg")
  {
    PrefixHead();
    SmallSuffix();
    assert GALLERY[0] == '/';
    EndsAsItsTail(GALLERY, "a.jpg", ".jpg");
    EndsAsItsTail(GALLERY_PREFIX, GALLERY + "a.jpg", ".jpg");
  }

  lemma SmallSuffix()
    ensures HasSuffix("a.jpg", ".jpg") && Lower(".jpg") == ".jpg" && Solid(".jpg")
  {
  }

  /** Text that starts visibly and ends with a visible suffix. */
  lemma EndsAsItsTail(head: string, tail: string, suffix: string)
    requires head != "" && !IsSpace(head[0]) && HasSuffix(tail, suffix) && Solid(suffix) && Lower(suffix) == suffix
    ensures HasSuffix(head + tail, suffix) && Trimmed(head + tail) && HasSuffix(Lower(head + tail), suffix)
  {
    var s := head + tail;
    assert s[|s| - |suffix|..] == tail[|tail| - |suffix|..];
    assert s[|s| - |suffix|..][|suffix| - 1] == s[|s| - 1];
    assert Lower(s)[|s| - |suffix|..] == Lower(s[|s| - |suffix|..]);
  }

  /** An object with one image and nothing else offers that image. */
  function Shown(raw: string): Json {
    Obj(map["image" := Str(raw)])
  }

  lemma ShownOffers(raw: string)
    ensures Traversal(Shown(raw), [Pictured(raw)])
  {
    var m := map["image" := Str(raw)];
    NoDescriptionsWithout(m, DESCRIPTION_KEYS);
    var before := ["cover_url", "cover_image_url", "event_cover_url", "social_image_url", "share_image_url"];
    var after := ["image_url", "thumbnail_url"];
    assert IMAGE_KEYS == before + (["image"] + after);
    ImagesInTurn(m, before, ["image"] + after);
    ImagesInTurn(m, ["image"], after);
    NoImagesWithout(m, before);
    NoImagesWithout(m, after);
    OneImage(m, "image", raw);
    assert OwnCandidates(m) == [Pictured(raw)];
    LeafEntries(Shown(raw), "image");
  }

  /** A string entry offers nothing by itself. */
  lemma LeafEntries(node: Json, key: string)
    requires node.Obj? && node.fields.Keys == {key} && node.fields[key].Str?
    ensures EntryTraversal(node, node.fields.Keys, [])
    ensures Traversal(node, OwnCandidates(node.fields))
  {
    assert node.fields.Keys - {key} == {};
    assert EntryTraversal(node, node.fields.Keys - {key}, []);
    var none: seq<Candidate> := [];
    assert none + none == none;
    assert EntryTraversal(node, node.fields.Keys, []);
    assert OwnCandidates(node.fields) + [] == OwnCandidates(node.fields);
  }

  /** The two entries of an object may be visited in either order. */
  lemma TwoEntries(node: Json, j: string, k: string, first: seq<Candidate>, second: seq<Candidate>)
    requires node.Obj? && j != k && node.fields.Keys == {j, k}
    requires Traversal(node.fields[j], first) && Traversal(node.fields[k], second)
    ensures EntryTraversal(node, node.fields.Keys, first + second)
  {
    var rest := node.fields.Keys - {j};
    assert rest == {k} && rest - {k} == {};
    assert EntryTraversal(node, rest - {k}, []);
    assert second + [] == second;
    assert EntryTraversal(node, rest, second);
  }

  /** Two objects side by side in a third. */
  function SideBySide(x: string, y: string): Json {
    Obj(map["a" := Shown(x), "b" := Shown(y)])
  }

  lemma BothTraversals(x: string, y: string)
    ensures Traversal(SideBySide(x, y), [Pictured(x)] + [Pictured(y)])
    ensures Traversal(SideBySide(x, y), [Pictured(y)] + [Pictured(x)])
  {
    var m := SideBySide(x, y).fields;
    NoDescriptionsWithout(m, DESCRIPTION_KEYS);
    NoImagesWithout(m, IMAGE_KEYS);
    assert OwnCandidates(m) == [];
    assert m.Keys == {"a", "b"};
    ShownOffers(x);
    ShownOffers(y);
    EitherOrder(SideBySide(x, y), "a", "b", [Pictured(x)], [Pictured(y)]);
    EitherOrder(SideBySide(x, y), "b", "a", [Pictured(y)], [Pictured(x)]);
  }

  lemma EitherOrder(node: Json, j: string, k: string, first: seq<Candidate>, second: seq<Candidate>)
    requires node.Obj? && j != k && node.fields.Keys == {j, k} && OwnCandidates(node.fields) == []
    requires Traversal(node.fields[j], first) && Traversal(node.fields[k], second)
    ensures Traversal(node, first + second)
  {
    TwoEntries(node, j, k, first, second);
    OnlyEntries(node, first + second);
  }

  lemma OnlyEntries(node: Json, order: seq<Candidate>)
    requires node.Obj? && OwnCandidates(node.fields) == [] && EntryTraversal(node, node.fields.Keys, order)
    ensures Traversal(node, order)
  {
    assert [] + order == order;
  }

  /** So one document has two traversals with different results: which image is found depends on the map order. */
  lemma OrderMatters(n: Normalizers, s: Found)
    requires ReadsBoth(n) && s.image == ""
    ensures exists a, b ::
              && Traversal(SideBySide(PADDED_RAW, PLAIN_RAW), a) && Traversal(SideBySide(PADDED_RAW, PLAIN_RAW), b)
              && ImageScore(ApplyAll(n, s, a).image) < ImageScore(ApplyAll(n, s, b).image)
  {
    BothNames(n);
    OrderMattersFor(n, s, PADDED_RAW, PLAIN_RAW, NAME);
  }

  lemma OrderMattersFor(n: Normalizers, s: Found, x: string, y: string, name: string)
    requires s.image == "" && Trimmed(name) && HasSuffix(Lower(name), ".jpg")
    requires PictureOf(n, Pictured(x)) == name + " " && PictureOf(n, Pictured(y)) == name
    ensures exists a, b ::
              && Traversal(SideBySide(x, y), a) && Traversal(SideBySide(x, y), b)
              && ImageScore(ApplyAll(n, s, a).image) < ImageScore(ApplyAll(n, s, b).image)
  {
    BothTraversals(x, y);
    assert [Pictured(x)] + [Pictured(y)] == [Pictured(x), Pictured(y)] && [Pictured(y)] + [Pictured(x)] == [Pictured(y), Pictured(x)];
    FirstOfTwoStays(n, Pictured(x), Pictured(y), name);
    SearchKeepsImage(n, s, [Pictured(x), Pictured(y)]);
    SearchKeepsImage(n, s, [Pictured(y), Pictured(x)]);
  }

  /** Two images in one object. */
  function InOneObject(cover: string, image: string): Json {
    Obj(map["cover_url" := Str(cover), "image" := Str(image)])
  }

  /** The presence of a masking name alone decides nothing: in one object the fields have a fixed order, and this document
      ends with the best image in every traversal although it offers one. */
  lemma HarmlessMask(n: Normalizers, s: Found, order: seq<Candidate>)
    requires ReadsBoth(n) && s.image == "" && Traversal(InOneObject(PLAIN_RAW, PADDED_RAW), order)
    ensures Offered(InOneObject(PLAIN_RAW, PADDED_RAW), Pictured(PADDED_RAW))
    ensures Masks(PictureOf(n, Pictured(PADDED_RAW)), ImageScore(NAME))
    ensures ApplyAll(n, s, order).image == NAME
  {
    BothNames(n);
    PaddedScoresLess(NAME);
    InOneObjectOrder(PLAIN_RAW, PADDED_RAW, order);
    FirstOfTwoStays(n, Pictured(PADDED_RAW), Pictured(PLAIN_RAW), NAME);
    SearchKeepsImage(n, s, order);
  }

  lemma InOneObjectOrder(cover: string, image: string, order: seq<Candidate>)
    requires Traversal(InOneObject(cover, image), order)
    ensures order == [Pictured(cover), Pictured(image)] && Pictured(image) in OwnCandidates(InOneObject(cover, image).fields)
  {
    var node := InOneObject(cover, image);
    var m := node.fields;
    NoDescriptionsWithout(m, DESCRIPTION_KEYS);
    CoverThenImage(m, cover, image);
    var rest :| order == OwnCandidates(m) + rest && EntryTraversal(node, m.Keys, rest);
    LeavesOfferNothing(node, m.Keys, rest);
  }

  lemma CoverThenImage(m: map<string, Json>, cover: string, image: string)
    requires m == map["cover_url" := Str(cover), "image" := Str(image)]
    ensures ImageCandidates(m, IMAGE_KEYS) == [Pictured(cover), Pictured(image)]
  {
    var between := ["cover_image_url", "event_cover_url", "social_image_url", "share_image_url"];
    var after := ["image_url", "thumbnail_url"];
    assert IMAGE_KEYS == ["cover_url"] + (between + (["image"] + after));
    ImagesInTurn(m, ["cover_url"], between + (["image"] + after));
    ImagesInTurn(m, between, ["image"] + after);
    ImagesInTurn(m, ["image"], after);
    NoImagesWithout(m, between);
    NoImagesWithout(m, after);
    OneImage(m, "cover_url", cover);
    OneImage(m, "image", image);
  }

  lemma OneImage(m: map<string, Json>, key: string, raw: string)
    requires key in m && m[key] == Str(raw)
    ensures ImageCandidates(m, [key]) == [Pictured(raw)]
  {
    assert ImageCandidates(m, [key]) == [Pictured(raw)] + ImageCandidates(m, []);
  }

  /** String entries offer nothing by themselves. */
  lemma {:induction false} LeavesOfferNothing(node: Json, todo: set<string>, order: seq<Candidate>)
    requires node.Obj? && todo <= node.fields.Keys && EntryTraversal(node, todo, order)
    requires forall k | k in node.fields :: node.fields[k].Str?
    ensures order == []
    decreases todo
  {
    if todo != {} {
      var k, first, rest :| k in todo && order == first + rest && Traversal(node.fields[k], first)
                            && EntryTraversal(node, todo - {k}, rest);
      LeavesOfferNothing(node, todo - {k}, rest);
    }
  }
}
