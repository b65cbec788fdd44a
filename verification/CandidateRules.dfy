/** Which fields of an imported document count, in which order, and how much descriptions and images are worth. */
module CandidateRules {
  import opened Text
  import opened Json
  import opened CandidateSearch
  import MirrorRenderer

  // Kinds of objects

  function One(m: map<string, Json>, key: string): nat {
    if key in m then 1 else 0
  }

  /** At least three of ten fields make an object a host's profile. */
  predicate IsHost(m: map<string, Json>) {
    One(m, "api_id") + One(m, "username") + One(m, "avatar_url") + One(m, "bio_short") + One(m, "twitter_handle")
    + One(m, "instagram_handle") + One(m, "linkedin_handle") + One(m, "youtube_handle") + One(m, "tiktok_handle")
    + One(m, "last_online_at") >= 3
  }

  /** The type "event", in any case, or at least two of thirteen fields make it an event. */
  predicate IsEvent(m: map<string, Json>) {
    || Lower(TrimSpace(StringAt(m, "@type"))) == "event"
    || One(m, "start_at") + One(m, "start_time") + One(m, "startDate") + One(m, "starts_at") + One(m, "endDate")
       + One(m, "event_api_id") + One(m, "event_description") + One(m, "event_description_md") + One(m, "cover_url")
       + One(m, "event_cover_url") + One(m, "location_name") + One(m, "ticket_types") + One(m, "calendar_api_id") >= 2
  }

  lemma PresentSplits(m: map<string, Json>, key: string, keys: seq<string>)
    ensures Present(m, [key] + keys) == One(m, key) + Present(m, keys)
  {
    assert ([key] + keys)[1..] == keys;
  }

  lemma {:induction false} PresentInTurn(m: map<string, Json>, a: seq<string>, b: seq<string>)
    ensures Present(m, a + b) == Present(m, a) + Present(m, b)
  {
    if a == [] {
      assert a + b == b;
    } else {
      assert (a + b)[1..] == a[1..] + b;
      PresentInTurn(m, a[1..], b);
    }
  }

  lemma PresentOfFive(m: map<string, Json>, v: string, w: string, x: string, y: string, z: string)
    ensures Present(m, [v, w, x, y, z]) == One(m, v) + One(m, w) + One(m, x) + One(m, y) + One(m, z)
  {
    assert [v, w, x, y, z] == [v] + [w, x, y, z] && [w, x, y, z] == [w] + [x, y, z] && [x, y, z] == [x] + [y, z]
        && [y, z] == [y] + [z] && [z] == [z] + [];
    PresentSplits(m, v, [w, x, y, z]);
    PresentSplits(m, w, [x, y, z]);
    PresentSplits(m, x, [y, z]);
    PresentSplits(m, y, [z]);
    PresentSplits(m, z, []);
  }

  lemma PresentOfThree(m: map<string, Json>, x: string, y: string, z: string)
    ensures Present(m, [x, y, z]) == One(m, x) + One(m, y) + One(m, z)
  {
    assert [x, y, z] == [x] + [y, z] && [y, z] == [y] + [z] && [z] == [z] + [];
    PresentSplits(m, x, [y, z]);
    PresentSplits(m, y, [z]);
    PresentSplits(m, z, []);
  }

  lemma HostsAreRecognized(m: map<string, Json>)
    ensures LooksLikeHostProfile(m) <==> IsHost(m)
  {
    var a := ["api_id", "username", "avatar_url", "bio_short", "twitter_handle"];
    var b := ["instagram_handle", "linkedin_handle", "youtube_handle", "tiktok_handle", "last_online_at"];
    assert HOST_KEYS == a + b;
    PresentInTurn(m, a, b);
    PresentOfFive(m, "api_id", "username", "avatar_url", "bio_short", "twitter_handle");
    PresentOfFive(m, "instagram_handle", "linkedin_handle", "youtube_handle", "tiktok_handle", "last_online_at");
  }

  lemma NoTypeIsNoEvent()
    ensures Lower(TrimSpace("")) != "event"
  {
    assert |Lower(TrimSpace(""))| == 0;
  }

  lemma EventsAreRecognized(m: map<string, Json>)
    ensures LooksLikeEventNode(m) <==> IsEvent(m)
  {
    var a := ["start_at", "start_time", "startDate", "starts_at", "endDate"];
    var b := ["event_api_id", "event_description", "event_description_md", "cover_url", "event_cover_url"];
    var c := ["location_name", "ticket_types", "calendar_api_id"];
    assert EVENT_KEYS == a + (b + c);
    PresentInTurn(m, a, b + c);
    PresentInTurn(m, b, c);
    PresentOfFive(m, "start_at", "start_time", "startDate", "starts_at", "endDate");
    PresentOfFive(m, "event_api_id", "event_description", "event_description_md", "cover_url", "event_cover_url");
    PresentOfThree(m, "location_name", "ticket_types", "calendar_api_id");
    NoTypeIsNoEvent();
  }

  // The fields that count

  /** A text field that counts as a description: in an event any of the seven, elsewhere the two of events, and in a host's
      profile none. */
  function DescriptionField(m: map<string, Json>, key: string, onlyInEvents: bool): seq<Candidate> {
    if key in m && m[key].Str? && !IsHost(m) && (onlyInEvents ==> IsEvent(m)) then [Described(m[key].s, key)] else []
  }

  function ImageField(m: map<string, Json>, key: string): seq<Candidate> {
    if key in m && m[key].Str? then [Pictured(m[key].s)] else []
  }

  function MirrorField(m: map<string, Json>): seq<Candidate> {
    if IsEvent(m) && "description_mirror" in m then [Mirrored(MirrorRenderer.Render(m["description_mirror"]))] else []
  }

  function DescriptionFields(m: map<string, Json>): seq<Candidate> {
    DescriptionField(m, "event_description_md", false) + DescriptionField(m, "event_description", false)
    + DescriptionField(m, "description_md", true) + DescriptionField(m, "long_description_md", true)
    + DescriptionField(m, "long_description", true) + DescriptionField(m, "description", true) + DescriptionField(m, "about", true)
  }

  function ImageFields(m: map<string, Json>): seq<Candidate> {
    ImageField(m, "cover_url") + ImageField(m, "cover_image_url") + ImageField(m, "event_cover_url")
    + ImageField(m, "social_image_url") + ImageField(m, "share_image_url") + ImageField(m, "image") + ImageField(m, "image_url")
    + ImageField(m, "thumbnail_url")
  }

  lemma DescribedFirst(m: map<string, Json>, key: string, keys: seq<string>, onlyInEvents: bool)
    requires HasPrefix(key, "event_") <==> !onlyInEvents
    ensures DescriptionCandidates(m, [key] + keys) == DescriptionField(m, key, onlyInEvents) + DescriptionCandidates(m, keys)
  {
    HostsAreRecognized(m);
    EventsAreRecognized(m);
    assert ([key] + keys)[1..] == keys;
  }

  lemma PicturedFirst(m: map<string, Json>, key: string, keys: seq<string>)
    ensures ImageCandidates(m, [key] + keys) == ImageField(m, key) + ImageCandidates(m, keys)
  {
    assert ([key] + keys)[1..] == keys;
  }

  lemma StartsOtherwise(key: string, prefix: string)
    requires key != "" && prefix != "" && key[0] != prefix[0]
    ensures !HasPrefix(key, prefix)
  {
    if |prefix| <= |key| {
      assert key[..|prefix|][0] == key[0];
    }
  }

  lemma DescriptionsAreFields(m: map<string, Json>)
    ensures DescriptionCandidates(m, DESCRIPTION_KEYS) == DescriptionFields(m)
  {
    var g := ["about"];
    var f := ["description"] + g;
    var e := ["long_description"] + f;
    var d := ["long_description_md"] + e;
    var c := ["description_md"] + d;
    var b := ["event_description"] + c;
    assert DESCRIPTION_KEYS == ["event_description_md"] + b;
    assert g == ["about"] + [];
    EventPrefixes();
    DescribedFirst(m, "about", [], true);
    DescribedFirst(m, "description", g, true);
    DescribedFirst(m, "long_description", f, true);
    DescribedFirst(m, "long_description_md", e, true);
    DescribedFirst(m, "description_md", d, true);
    DescribedFirst(m, "event_description", c, false);
    DescribedFirst(m, "event_description_md", b, false);
    SevenInSequence(DescriptionField(m, "event_description_md", false), DescriptionField(m, "event_description", false),
                    DescriptionField(m, "description_md", true), DescriptionField(m, "long_description_md", true),
                    DescriptionField(m, "long_description", true), DescriptionField(m, "description", true),
                    DescriptionField(m, "about", true));
  }

  lemma EventPrefixes()
    ensures HasPrefix("event_description_md", "event_") && HasPrefix("event_description", "event_")
    ensures !HasPrefix("description_md", "event_") && !HasPrefix("long_description_md", "event_")
    ensures !HasPrefix("long_description", "event_") && !HasPrefix("description", "event_") && !HasPrefix("about", "event_")
  {
    assert "event_description_md"[..6] == "event_" && "event_description"[..6] == "event_";
    StartsOtherwise("description_md", "event_");
    StartsOtherwise("long_description_md", "event_");
    StartsOtherwise("long_description", "event_");
    StartsOtherwise("description", "event_");
    StartsOtherwise("about", "event_");
  }

  lemma SevenInSequence<T>(a: seq<T>, b: seq<T>, c: seq<T>, d: seq<T>, e: seq<T>, f: seq<T>, g: seq<T>)
    ensures a + (b + (c + (d + (e + (f + (g + [])))))) == a + b + c + d + e + f + g
  {
    assert g + [] == g;
    assert e + (f + g) == e + f + g;
    assert c + (d + (e + f + g)) == c + d + e + f + g;
    assert a + (b + (c + d + e + f + g)) == a + b + c + d + e + f + g;
  }

  lemma ImagesAreFields(m: map<string, Json>)
    ensures ImageCandidates(m, IMAGE_KEYS) == ImageFields(m)
  {
    var h := ["thumbnail_url"];
    var g := ["image_url"] + h;
    var f := ["image"] + g;
    var e := ["share_image_url"] + f;
    var d := ["social_image_url"] + e;
    var c := ["event_cover_url"] + d;
    var b := ["cover_image_url"] + c;
    assert IMAGE_KEYS == ["cover_url"] + b;
    assert h == ["thumbnail_url"] + [];
    PicturedFirst(m, "thumbnail_url", []);
    PicturedFirst(m, "image_url", h);
    PicturedFirst(m, "image", g);
    PicturedFirst(m, "share_image_url", f);
    PicturedFirst(m, "social_image_url", e);
    PicturedFirst(m, "event_cover_url", d);
    PicturedFirst(m, "cover_image_url", c);
    PicturedFirst(m, "cover_url", b);
    SevenInSequence(ImageField(m, "cover_image_url"), ImageField(m, "event_cover_url"), ImageField(m, "social_image_url"),
                    ImageField(m, "share_image_url"), ImageField(m, "image"), ImageField(m, "image_url"), ImageField(m, "thumbnail_url"));
    EightInSequence(ImageField(m, "cover_url"), ImageField(m, "cover_image_url"), ImageField(m, "event_cover_url"),
                    ImageField(m, "social_image_url"), ImageField(m, "share_image_url"), ImageField(m, "image"),
                    ImageField(m, "image_url"), ImageField(m, "thumbnail_url"));
  }

  lemma EightInSequence<T>(z: seq<T>, a: seq<T>, b: seq<T>, c: seq<T>, d: seq<T>, e: seq<T>, f: seq<T>, g: seq<T>)
    ensures z + (a + b + c + d + e + f + g) == z + a + b + c + d + e + f + g
  {
  }

  /** For every object: exactly these fields are tried, in this order. */
  lemma FieldsInOrder(m: map<string, Json>)
    ensures OwnCandidates(m) == MirrorField(m) + DescriptionFields(m) + ImageFields(m)
  {
    EventsAreRecognized(m);
    DescriptionsAreFields(m);
    ImagesAreFields(m);
  }

  // What a description is worth

  /** The bonus of a field. The two fields of events have none. */
  ghost predicate Worth(key: string, bonus: int) {
    || (key == "description_mirror" && bonus == 12000)
    || ((key == "description_md" || key == "long_description_md") && bonus == 3000)
    || (key == "long_description" && bonus == 2000)
    || (key == "description" && bonus == 1000)
    || (key == "about" && bonus == 500)
    || ((key == "event_description_md" || key == "event_description") && bonus == 0)
  }

  predicate IsKeyChar(c: char) {
    'a' <= c <= 'z' || c == '_'
  }

  lemma KeysAreLower(key: string)
    requires key != "" && forall i | 0 <= i < |key| :: IsKeyChar(key[i])
    ensures Lower(TrimSpace(key)) == key
  {
    TrimmedIsFixed(key);
  }

  lemma WorthOfMirror()
    ensures KeyBonus(Lower(TrimSpace("description_mirror"))) == 12000
  {
    KeysAreLower("description_mirror");
  }

  lemma WorthOfMarkdown()
    ensures KeyBonus(Lower(TrimSpace("description_md"))) == 3000 && KeyBonus(Lower(TrimSpace("long_description_md"))) == 3000
  {
    KeysAreLower("description_md");
    KeysAreLower("long_description_md");
  }

  lemma WorthOfText()
    ensures KeyBonus(Lower(TrimSpace("long_description"))) == 2000 && KeyBonus(Lower(TrimSpace("description"))) == 1000
    ensures KeyBonus(Lower(TrimSpace("about"))) == 500
  {
    KeysAreLower("long_description");
    KeysAreLower("description");
    KeysAreLower("about");
  }

  lemma WorthOfEvents()
    ensures KeyBonus(Lower(TrimSpace("event_description_md"))) == 0 && KeyBonus(Lower(TrimSpace("event_description"))) == 0
  {
    KeysAreLower("event_description_md");
    KeysAreLower("event_description");
  }

  /** Four hundred for a list, by dash or by bullet, and a hundred for a tab. */
  function Layout(value: string): int {
    (if Contains(value, "\n- ") || Contains(value, "\n\U{2022} ") then 400 else 0) + (if Contains(value, "\t") then 100 else 0)
  }

  /** How many characters of a text lie at or above a code point. */
  function From(s: string, bound: int): nat {
    if s == [] then 0 else (if s[0] as int >= bound then 1 else 0) + From(s[1..], bound)
  }

  /** A character takes one byte, and one more for each of the three bounds of UTF-8 it reaches. */
  lemma {:induction false} BytesAreUtf8(s: string)
    ensures ByteLength(s) == |s| + From(s, 0x80) + From(s, 0x800) + From(s, 0x1_0000)
  {
    if s != [] {
      BytesAreUtf8(s[1..]);
    }
  }

  /** Of two texts, one is preferred exactly when its bytes, the bonus of its field and its layout add up to more. */
  lemma PreferredIff(v: string, key: string, bonus: int, w: string, other: string, bonus': int)
    requires TrimSpace(v) != "" && TrimSpace(w) != "" && Worth(key, bonus) && Worth(other, bonus')
    ensures DescriptionScore(v, key) > DescriptionScore(w, other)
       <==> ByteLength(TrimSpace(v)) + bonus + Layout(v) > ByteLength(TrimSpace(w)) + bonus' + Layout(w)
    ensures DescriptionScore(v, key) > DescriptionScore("", other)
  {
    WorthOfMirror();
    WorthOfMarkdown();
    WorthOfText();
    WorthOfEvents();
  }

  // What an image is worth

  function Has(low: string, word: string): int {
    if Contains(low, word) then 1 else 0
  }

  /** Twenty for each of eleven words of event covers, less twenty-five for each of seven words of people, and more for the
      two directories of event images and for the small square format. */
  function ImageWorth(low: string): int {
    20 * (Has(low, "gallery-images") + Has(low, "width=300") + Has(low, "height=300") + Has(low, "fit=cover") + Has(low, "event-cover")
          + Has(low, "event_cover") + Has(low, "event-covers") + Has(low, "cover") + Has(low, "square") + Has(low, "share")
          + Has(low, "social"))
    - 25 * (Has(low, "avatar") + Has(low, "avatars") + Has(low, "profile") + Has(low, "user") + Has(low, "host")
            + Has(low, "speaker") + Has(low, "logo"))
    + 40 * Has(low, "lumacdn.com/event-covers") + 120 * Has(low, "lumacdn.com/gallery-images")
    + 140 * Has(low, "width=300") * Has(low, "height=300")
  }

  lemma OccurringFirst(low: string, word: string, words: seq<string>)
    ensures Occurring(low, [word] + words) == Has(low, word) + Occurring(low, words)
  {
    assert ([word] + words)[1..] == words;
  }

  lemma {:induction false} OccurringInTurn(low: string, a: seq<string>, b: seq<string>)
    ensures Occurring(low, a + b) == Occurring(low, a) + Occurring(low, b)
  {
    if a == [] {
      assert a + b == b;
    } else {
      assert (a + b)[1..] == a[1..] + b;
      OccurringInTurn(low, a[1..], b);
    }
  }

  lemma OccurringOfThree(low: string, x: string, y: string, z: string)
    ensures Occurring(low, [x, y, z]) == Has(low, x) + Has(low, y) + Has(low, z)
  {
    assert [x, y, z] == [x] + [y, z] && [y, z] == [y] + [z] && [z] == [z] + [];
    OccurringFirst(low, x, [y, z]);
    OccurringFirst(low, y, [z]);
    OccurringFirst(low, z, []);
  }

  lemma OccurringOfFour(low: string, w: string, x: string, y: string, z: string)
    ensures Occurring(low, [w, x, y, z]) == Has(low, w) + Has(low, x) + Has(low, y) + Has(low, z)
  {
    assert [w, x, y, z] == [w] + [x, y, z];
    OccurringFirst(low, w, [x, y, z]);
    OccurringOfThree(low, x, y, z);
  }

  lemma CoverWordsCount(low: string)
    ensures Occurring(low, COVER_WORDS)
         == Has(low, "gallery-images") + Has(low, "width=300") + Has(low, "height=300") + Has(low, "fit=cover")
            + Has(low, "event-cover") + Has(low, "event_cover") + Has(low, "event-covers") + Has(low, "cover")
            + Has(low, "square") + Has(low, "share") + Has(low, "social")
  {
    var a := ["gallery-images", "width=300", "height=300", "fit=cover"];
    var b := ["event-cover", "event_cover", "event-covers", "cover"];
    var c := ["square", "share", "social"];
    assert COVER_WORDS == a + (b + c);
    OccurringInTurn(low, a, b + c);
    OccurringInTurn(low, b, c);
    OccurringOfFour(low, "gallery-images", "width=300", "height=300", "fit=cover");
    OccurringOfFour(low, "event-cover", "event_cover", "event-covers", "cover");
    OccurringOfThree(low, "square", "share", "social");
  }

  lemma PersonWordsCount(low: string)
    ensures Occurring(low, PERSON_WORDS)
         == Has(low, "avatar") + Has(low, "avatars") + Has(low, "profile") + Has(low, "user") + Has(low, "host")
            + Has(low, "speaker") + Has(low, "logo")
  {
    var a := ["avatar", "avatars", "profile", "user"];
    var b := ["host", "speaker", "logo"];
    assert PERSON_WORDS == a + b;
    OccurringInTurn(low, a, b);
    OccurringOfFour(low, "avatar", "avatars", "profile", "user");
    OccurringOfThree(low, "host", "speaker", "logo");
  }

  /** The score of an address, in lower case, and five more for an image file; no address at all scores least. */
  lemma ImageScoreIs(url: string)
    ensures ImageScore(url) ==
              if url == "" then -1000
              else
                var low := Lower(url);
                ImageWorth(low) + if HasSuffix(low, ".jpg") || HasSuffix(low, ".jpeg") || HasSuffix(low, ".png")
                                     || HasSuffix(low, ".webp") then 5 else 0
  {
    CoverWordsCount(Lower(url));
    PersonWordsCount(Lower(url));
    WordScoreIs(Lower(url), Occurring(Lower(url), COVER_WORDS), Occurring(Lower(url), PERSON_WORDS));
  }

  lemma WordScoreIs(low: string, covers: int, persons: int)
    requires covers == Occurring(low, COVER_WORDS) && persons == Occurring(low, PERSON_WORDS)
    ensures WordScore(low) == 20 * covers - 25 * persons + 40 * Has(low, "lumacdn.com/event-covers")
                              + 120 * Has(low, "lumacdn.com/gallery-images") + 140 * Has(low, "width=300") * Has(low, "height=300")
  {
  }

  // Addresses of images

  const SMALL_SQUARE := "https://images.lumacdn.com/cdn-cgi/image/"
                      + "format=auto,fit=cover,dpr=2,background=white,quality=75,width=300,height=300"

  /** s is before, then sub for the first time, then name. */
  ghost predicate FirstSplit(s: string, sub: string, before: string, name: string) {
    s == before + (sub + name) && forall i | 0 <= i < |before| :: !OccursAt(s, sub, i)
  }

  lemma OccursOneEarlier(s: string, sub: string, i: nat)
    requires s != ""
    ensures OccursAt(s[1..], sub, i) <==> OccursAt(s, sub, i + 1)
  {
    if i + 1 + |sub| <= |s| {
      assert s[1..][i..i + |sub|] == s[i + 1..i + 1 + |sub|];
    }
  }

  lemma {:induction false} FromFirstFinds(s: string, sub: string, before: string, name: string)
    requires FirstSplit(s, sub, before, name)
    ensures FromFirst(s, sub) == sub + name
  {
    if before == "" {
      assert s == sub + name;
      assert s[0..|sub|] == sub;
    } else {
      forall i: nat | i < |before[1..]|
        ensures !OccursAt(s[1..], sub, i)
      {
        OccursOneEarlier(s, sub, i);
      }
      assert s[1..] == before[1..] + (sub + name);
      FromFirstFinds(s[1..], sub, before[1..], name);
    }
  }

  lemma {:induction false} FirstOccurrence(s: string, sub: string, i: nat) returns (k: nat)
    requires OccursAt(s, sub, i)
    ensures k <= i && OccursAt(s, sub, k) && forall j | 0 <= j < k :: !OccursAt(s, sub, j)
    decreases i
  {
    if j: nat :| j < i && OccursAt(s, sub, j) {
      k := FirstOccurrence(s, sub, j);
    } else {
      k := i;
    }
  }

  lemma ContainedIsSplit(s: string, sub: string)
    ensures Contains(s, sub) <==> exists before, name :: FirstSplit(s, sub, before, name)
  {
    if Contains(s, sub) {
      var i :| 0 <= i <= |s| - |sub| && OccursAt(s, sub, i);
      var k := FirstOccurrence(s, sub, i);
      assert s == s[..k] + (sub + s[k + |sub|..]);
      assert FirstSplit(s, sub, s[..k], s[k + |sub|..]);
    }
    if before, name :| FirstSplit(s, sub, before, name) {
      assert s[|before|..|before| + |sub|] == sub;
      assert OccursAt(s, sub, |before|);
    }
  }

  /** The address names a gallery file of the image host. */
  ghost predicate InGallery(n: Normalizers, raw: string, name: string) {
    var parsed := n.parseUrl(TrimSpace(raw));
    && TrimSpace(raw) != "" && parsed.Some? && Contains(Lower(parsed.value.host), "images.lumacdn.com")
    && exists before :: FirstSplit(parsed.value.path, "/gallery-images/", before, name)
  }

  /** A gallery file is asked for in the small square format, from the first place where its path names the gallery; any
      other address is only trimmed. */
  lemma AddressesNormalize(n: Normalizers, raw: string)
    ensures forall name :: InGallery(n, raw, name) ==> NormalizeImage(n, raw) == SMALL_SQUARE + ("/gallery-images/" + name)
    ensures (forall name :: !InGallery(n, raw, name)) ==> NormalizeImage(n, raw) == TrimSpace(raw)
  {
    var parsed := n.parseUrl(TrimSpace(raw));
    if TrimSpace(raw) != "" && parsed.Some? && Contains(Lower(parsed.value.host), "images.lumacdn.com") {
      var path := parsed.value.path;
      ContainedIsSplit(path, GALLERY);
      forall before, name | FirstSplit(path, GALLERY, before, name)
        ensures FromFirst(path, GALLERY) == GALLERY + name
      {
        FromFirstFinds(path, GALLERY, before, name);
      }
      if before, name :| FirstSplit(path, GALLERY, before, name) {
        assert InGallery(n, raw, name);
      }
    }
  }
}
