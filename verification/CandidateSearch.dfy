/** extractFromGenericJSON of backend/api/import.go: the search of a JSON document for the best description, the best
    rendered description and the best image. Go visits the entries of a map in an unspecified order. */
module CandidateSearch {
  import opened Collections
  import opened Text
  import opened Json
  import MirrorRenderer

  datatype Url = Url(host: string, path: string)

  /** normalizeImportedDescription and url.Parse */
  datatype Normalizers = Normalizers(description: string -> string, parseUrl: string -> Option<Url>)

  // Scores

  /** len(s): the UTF-8 bytes of a text */
  function ByteLength(s: string): nat {
    if s == [] then 0
    else
      var c := s[0] as int;
      (if c < 0x80 then 1 else if c < 0x800 then 2 else if c < 0x1_0000 then 3 else 4) + ByteLength(s[1..])
  }

  function KeyBonus(key: string): int {
    match key
    case "description_mirror" => 12000
    case "event_jsonld_description" => 10000
    case "description_md" => 3000
    case "long_description_md" => 3000
    case "long_description" => 2000
    case "description" => 1000
    case "about" => 500
    case "bio_short" => 100
    case _ => 0
  }

  /** descriptionCandidateScore */
  function DescriptionScore(value: string, key: string): int {
    if TrimSpace(value) == "" then -1000
    else
      ByteLength(TrimSpace(value)) + KeyBonus(Lower(TrimSpace(key)))
      + (if Contains(value, "\n- ") || Contains(value, "\n\U{2022} ") then 400 else 0)
      + (if Contains(value, "\t") then 100 else 0)
  }

  const COVER_WORDS := ["gallery-images", "width=300", "height=300", "fit=cover", "event-cover", "event_cover", "event-covers",
                        "cover", "square", "share", "social"]
  const PERSON_WORDS := ["avatar", "avatars", "profile", "user", "host", "speaker", "logo"]

  predicate HasSuffix(s: string, suffix: string) {
    |suffix| <= |s| && s[|s| - |suffix|..] == suffix
  }

  predicate IsImageFile(low: string) {
    HasSuffix(low, ".jpg") || HasSuffix(low, ".jpeg") || HasSuffix(low, ".png") || HasSuffix(low, ".webp")
  }

  /** How many of the words occur. */
  function Occurring(low: string, words: seq<string>): nat {
    if words == [] then 0 else (if Contains(low, words[0]) then 1 else 0) + Occurring(low, words[1..])
  }

  /** The part of imageCandidateScore that looks for words. */
  function WordScore(low: string): int {
    20 * Occurring(low, COVER_WORDS) - 25 * Occurring(low, PERSON_WORDS)
    + (if Contains(low, "lumacdn.com/event-covers") then 40 else 0)
    + (if Contains(low, "lumacdn.com/gallery-images") then 120 else 0)
    + (if Contains(low, "width=300") && Contains(low, "height=300") then 140 else 0)
  }

  /** imageCandidateScore */
  function ImageScore(url: string): int {
    if url == "" then -1000 else WordScore(Lower(url)) + (if IsImageFile(Lower(url)) then 5 else 0)
  }

  method ImageCandidateScore(url: string) returns (score: int)
    ensures score == ImageScore(url)
  {
    if url == "" {
      return -1000;
    }
    var low := Lower(url);
    score := 0;
    for i := 0 to |COVER_WORDS|
      invariant score + 20 * Occurring(low, COVER_WORDS[i..]) == 20 * Occurring(low, COVER_WORDS)
    {
      assert COVER_WORDS[i..][1..] == COVER_WORDS[i + 1..];
      if Contains(low, COVER_WORDS[i]) {
        score := score + 20;
      }
    }
    for i := 0 to |PERSON_WORDS|
      invariant score - 25 * Occurring(low, PERSON_WORDS[i..]) == 20 * Occurring(low, COVER_WORDS) - 25 * Occurring(low, PERSON_WORDS)
    {
      assert PERSON_WORDS[i..][1..] == PERSON_WORDS[i + 1..];
      if Contains(low, PERSON_WORDS[i]) {
        score := score - 25;
      }
    }
    if Contains(low, "lumacdn.com/event-covers") {
      score := score + 40;
    }
    if Contains(low, "lumacdn.com/gallery-images") {
      score := score + 120;
    }
    if Contains(low, "width=300") && Contains(low, "height=300") {
      score := score + 140;
    }
    if IsImageFile(low) {
      score := score + 5;
    }
  }

  const GALLERY := "/gallery-images/"
  const GALLERY_PREFIX := "https://images.lumacdn.com/cdn-cgi/image/"
                        + "format=auto,fit=cover,dpr=2,background=white,quality=75,width=300,height=300"

  /** From the first occurrence of sub on. */
  function FromFirst(s: string, sub: string): string {
    if |s| < |sub| || OccursAt(s, sub, 0) then s else FromFirst(s[1..], sub)
  }

  /** normalizeLumaImageCandidate. The path has been percent-decoded, so it may end in a blank. */
  function NormalizeImage(n: Normalizers, raw: string): string {
    var raw := TrimSpace(raw);
    if raw == "" then ""
    else
      var parsed := n.parseUrl(raw);
      if parsed.None? || !Contains(Lower(parsed.value.host), "images.lumacdn.com") || !Contains(parsed.value.path, GALLERY) then raw
      else GALLERY_PREFIX + FromFirst(parsed.value.path, GALLERY)
  }

  // Candidates

  datatype Candidate = Described(raw: string, key: string) | Mirrored(html: string) | Pictured(raw: string)

  datatype Pick = Pick(value: string, score: int)

  /** What the search has found so far. */
  datatype Found = Found(description: Pick, html: Pick, image: string)

  datatype Kind = Describing | Mirroring

  /** The value a candidate puts forward for a kind of description, with its score. */
  function PickOf(n: Normalizers, kind: Kind, c: Candidate): Option<Pick> {
    match (kind, c)
    case (Describing, Described(raw, key)) =>
      var value := n.description(raw);
      if value == "" then None else Some(Pick(value, DescriptionScore(value, key)))
    case (Mirroring, Mirrored(html)) =>
      var value := TrimSpace(html);
      if value == "" then None else Some(Pick(value, DescriptionScore(value, "description_mirror")))
    case _ => None
  }

  function Better(current: Pick, offer: Option<Pick>): Pick {
    if offer.Some? && offer.value.score > current.score then offer.value else current
  }

  /** The comparison trims the image already chosen, but not the new one. */
  function BetterImage(n: Normalizers, current: string, c: Candidate): string {
    if !c.Pictured? then current
    else
      var url := NormalizeImage(n, c.raw);
      if url != "" && ImageScore(url) > ImageScore(TrimSpace(current)) then url else current
  }

  function Apply(n: Normalizers, s: Found, c: Candidate): Found {
    Found(Better(s.description, PickOf(n, Describing, c)), Better(s.html, PickOf(n, Mirroring, c)), BetterImage(n, s.image, c))
  }

  function ApplyAll(n: Normalizers, s: Found, order: seq<Candidate>): Found
    decreases order
  {
    if order == [] then s else ApplyAll(n, Apply(n, s, order[0]), order[1..])
  }

  lemma {:induction false} ApplyAllInTurn(n: Normalizers, s: Found, a: seq<Candidate>, b: seq<Candidate>)
    ensures ApplyAll(n, s, a + b) == ApplyAll(n, ApplyAll(n, s, a), b)
    decreases a
  {
    if a == [] {
      assert a + b == b;
    } else {
      assert (a + b)[1..] == a[1..] + b;
      ApplyAllInTurn(n, Apply(n, s, a[0]), a[1..], b);
    }
  }

  // The document

  const DESCRIPTION_KEYS := ["event_description_md", "event_description", "description_md", "long_description_md",
                             "long_description", "description", "about"]
  const IMAGE_KEYS := ["cover_url", "cover_image_url", "event_cover_url", "social_image_url", "share_image_url", "image",
                       "image_url", "thumbnail_url"]
  const HOST_KEYS := ["api_id", "username", "avatar_url", "bio_short", "twitter_handle", "instagram_handle",
                      "linkedin_handle", "youtube_handle", "tiktok_handle", "last_online_at"]
  const EVENT_KEYS := ["start_at", "start_time", "startDate", "starts_at", "endDate", "event_api_id", "event_description",
                       "event_description_md", "cover_url", "event_cover_url", "location_name", "ticket_types", "calendar_api_id"]

  function Present(m: map<string, Json>, keys: seq<string>): nat {
    if keys == [] then 0 else (if keys[0] in m then 1 else 0) + Present(m, keys[1..])
  }

  predicate LooksLikeHostProfile(m: map<string, Json>) {
    Present(m, HOST_KEYS) >= 3
  }

  predicate LooksLikeEventNode(m: map<string, Json>) {
    ("@type" in m && m["@type"].Str? && Lower(TrimSpace(m["@type"].s)) == "event") || Present(m, EVENT_KEYS) >= 2
  }

  function MirrorCandidates(m: map<string, Json>): seq<Candidate> {
    if LooksLikeEventNode(m) && "description_mirror" in m then [Mirrored(MirrorRenderer.Render(m["description_mirror"]))] else []
  }

  predicate Describes(m: map<string, Json>, key: string) {
    !LooksLikeHostProfile(m) && (LooksLikeEventNode(m) || HasPrefix(key, "event_")) && key in m && m[key].Str?
  }

  function DescriptionCandidates(m: map<string, Json>, keys: seq<string>): seq<Candidate> {
    if keys == [] then []
    else (if Describes(m, keys[0]) then [Described(m[keys[0]].s, keys[0])] else []) + DescriptionCandidates(m, keys[1..])
  }

  function ImageCandidates(m: map<string, Json>, keys: seq<string>): seq<Candidate> {
    if keys == [] then []
    else (if keys[0] in m && m[keys[0]].Str? then [Pictured(m[keys[0]].s)] else []) + ImageCandidates(m, keys[1..])
  }

  /** The candidates in the fields of one object, in the order they are tried. */
  function OwnCandidates(m: map<string, Json>): seq<Candidate> {
    MirrorCandidates(m) + DescriptionCandidates(m, DESCRIPTION_KEYS) + ImageCandidates(m, IMAGE_KEYS)
  }

  /** One of the orders in which a search of node may meet candidates. */
  ghost predicate Traversal(node: Json, order: seq<Candidate>)
    decreases node, 1
  {
    match node
    case Obj(m) => exists rest :: order == OwnCandidates(m) + rest && EntryTraversal(node, m.Keys, rest)
    case Arr(items) => ItemTraversal(node, 0, order)
    case _ => order == []
  }

  /** The entries under the given keys, in any order. */
  ghost predicate EntryTraversal(node: Json, todo: set<string>, order: seq<Candidate>)
    requires node.Obj? && todo <= node.fields.Keys
    decreases node, 0, todo
  {
    if todo == {} then order == []
    else exists k, first, rest ::
           k in todo && order == first + rest && Traversal(node.fields[k], first) && EntryTraversal(node, todo - {k}, rest)
  }

  /** The items from i on, in order. */
  ghost predicate ItemTraversal(node: Json, i: nat, order: seq<Candidate>)
    requires node.Arr? && i <= |node.items|
    decreases node, 0, |node.items| - i
  {
    if i == |node.items| then order == []
    else exists first, rest :: order == first + rest && Traversal(node.items[i], first) && ItemTraversal(node, i + 1, rest)
  }

  // The search

  class Search {
    const n: Normalizers
    var description: string
    var descriptionScore: int
    var html: string
    var htmlScore: int
    var image: string

    constructor (n: Normalizers)
      ensures this.n == n && Now() == Found(Pick("", -1000), Pick("", -1000), "")
    {
      this.n := n;
      description, descriptionScore, html, htmlScore, image := "", -1000, "", -1000, "";
    }

    function Now(): Found
      reads this
    {
      Found(Pick(description, descriptionScore), Pick(html, htmlScore), image)
    }

    method ApplyBestDescriptionCandidate(raw: string, key: string)
      modifies this`description, this`descriptionScore
      ensures Now() == Apply(n, old(Now()), Described(raw, key))
    {
      var candidate := n.description(raw);
      if candidate == "" {
        return;
      }
      var score := DescriptionScore(candidate, key);
      if score > descriptionScore {
        description := candidate;
        descriptionScore := score;
      }
    }

    method ApplyBestDescriptionHTMLCandidate(raw: string)
      modifies this`html, this`htmlScore
      ensures Now() == Apply(n, old(Now()), Mirrored(raw))
    {
      var candidate := TrimSpace(raw);
      if candidate == "" {
        return;
      }
      var score := DescriptionScore(candidate, "description_mirror");
      if score > htmlScore {
        html := candidate;
        htmlScore := score;
      }
    }

    method ApplyBestImageCandidate(raw: string)
      modifies this`image
      ensures Now() == Apply(n, old(Now()), Pictured(raw))
    {
      var candidate := NormalizeImage(n, raw);
      if candidate == "" {
        return;
      }
      var score := ImageCandidateScore(candidate);
      var best := ImageCandidateScore(TrimSpace(image));
      if score > best {
        image := candidate;
      }
    }

    method ApplyMirror(m: map<string, Json>)
      modifies this`html, this`htmlScore
      ensures Now() == ApplyAll(n, old(Now()), MirrorCandidates(m))
    {
      if LooksLikeEventNode(m) {
        if "description_mirror" in m {
          var rendered := MirrorRenderer.RenderLumaDescriptionMirrorHTML(m["description_mirror"]);
          ghost var before := Now();
          ApplyBestDescriptionHTMLCandidate(rendered);
          assert ApplyAll(n, before, [Mirrored(rendered)]) == ApplyAll(n, Apply(n, before, Mirrored(rendered)), []);
        }
      }
    }

    method ApplyDescriptions(m: map<string, Json>)
      modifies this`description, this`descriptionScore
      ensures Now() == ApplyAll(n, old(Now()), DescriptionCandidates(m, DESCRIPTION_KEYS))
    {
      var isHostProfile, isEventNode := LooksLikeHostProfile(m), LooksLikeEventNode(m);
      ghost var start := Now();
      for i := 0 to |DESCRIPTION_KEYS|
        invariant ApplyAll(n, Now(), DescriptionCandidates(m, DESCRIPTION_KEYS[i..]))
               == ApplyAll(n, start, DescriptionCandidates(m, DESCRIPTION_KEYS))
      {
        var key := DESCRIPTION_KEYS[i];
        assert DESCRIPTION_KEYS[i..][1..] == DESCRIPTION_KEYS[i + 1..];
        ghost var rest := DescriptionCandidates(m, DESCRIPTION_KEYS[i + 1..]);
        assert [] + rest == rest;
        if isHostProfile {
          NoDescriptions(m, DESCRIPTION_KEYS[i..]);
          NoDescriptions(m, []);
          break;
        }
        if !isEventNode && !HasPrefix(key, "event_") {
          continue;
        }
        if key in m && m[key].Str? {
          ApplyAllInTurn(n, Now(), [Described(m[key].s, key)], rest);
          OneByOne(n, Now(), Described(m[key].s, key));
          ApplyBestDescriptionCandidate(m[key].s, key);
        }
      }
    }

    method ApplyImages(m: map<string, Json>)
      modifies this`image
      ensures Now() == ApplyAll(n, old(Now()), ImageCandidates(m, IMAGE_KEYS))
    {
      ghost var start := Now();
      for i := 0 to |IMAGE_KEYS|
        invariant ApplyAll(n, Now(), ImageCandidates(m, IMAGE_KEYS[i..])) == ApplyAll(n, start, ImageCandidates(m, IMAGE_KEYS))
      {
        var key := IMAGE_KEYS[i];
        assert IMAGE_KEYS[i..][1..] == IMAGE_KEYS[i + 1..];
        ghost var rest := ImageCandidates(m, IMAGE_KEYS[i + 1..]);
        assert [] + rest == rest;
        if key in m && m[key].Str? {
          ApplyAllInTurn(n, Now(), [Pictured(m[key].s)], rest);
          OneByOne(n, Now(), Pictured(m[key].s));
          ApplyBestImageCandidate(m[key].s);
        }
      }
    }

    /** extractFromGenericJSON: it applies the candidates in the order of some traversal. */
    method ExtractFromGenericJSON(node: Json) returns (ghost order: seq<Candidate>)
      modifies this
      ensures Traversal(node, order) && Now() == ApplyAll(n, old(Now()), order)
      decreases node
    {
      ghost var start := Now();
      if node.Obj? {
        var m := node.fields;
        ApplyMirror(m);
        ApplyDescriptions(m);
        ApplyImages(m);
        InThreeTurns(n, start, MirrorCandidates(m), DescriptionCandidates(m, DESCRIPTION_KEYS), ImageCandidates(m, IMAGE_KEYS));
        var todo := m.Keys;
        ghost var done := [];
        while todo != {}
          invariant todo <= m.Keys
          invariant Now() == ApplyAll(n, ApplyAll(n, start, OwnCandidates(m)), done)
          invariant forall rest :: EntryTraversal(node, todo, rest) ==> EntryTraversal(node, m.Keys, done + rest)
          decreases todo
        {
          var k :| k in todo;
          ghost var first := ExtractFromGenericJSON(m[k]);
          ApplyAllInTurn(n, ApplyAll(n, start, OwnCandidates(m)), done, first);
          EntryDone(node, todo, k, done, first);
          todo, done := todo - {k}, done + first;
        }
        assert done + [] == done;
        ApplyAllInTurn(n, start, OwnCandidates(m), done);
        order := OwnCandidates(m) + done;
      } else if node.Arr? {
        order := [];
        assert forall rest: seq<Candidate> :: [] + rest == rest;
        for i := 0 to |node.items|
          invariant Now() == ApplyAll(n, start, order)
          invariant forall rest :: ItemTraversal(node, i, rest) ==> ItemTraversal(node, 0, order + rest)
        {
          ghost var first := ExtractFromGenericJSON(node.items[i]);
          ApplyAllInTurn(n, start, order, first);
          ItemDone(node, i, order, first);
          order := order + first;
        }
        assert order + [] == order;
      } else {
        order := [];
      }
    }
  }

  lemma OneByOne(n: Normalizers, s: Found, c: Candidate)
    ensures ApplyAll(n, s, [c]) == Apply(n, s, c)
  {
    assert ApplyAll(n, s, [c]) == ApplyAll(n, Apply(n, s, c), []);
  }

  lemma InThreeTurns(n: Normalizers, s: Found, a: seq<Candidate>, b: seq<Candidate>, c: seq<Candidate>)
    ensures ApplyAll(n, s, a + b + c) == ApplyAll(n, ApplyAll(n, ApplyAll(n, s, a), b), c)
  {
    ApplyAllInTurn(n, s, a + b, c);
    ApplyAllInTurn(n, s, a, b);
  }

  lemma {:induction false} NoDescriptions(m: map<string, Json>, keys: seq<string>)
    requires LooksLikeHostProfile(m)
    ensures DescriptionCandidates(m, keys) == []
  {
    if keys != [] {
      NoDescriptions(m, keys[1..]);
    }
  }

  lemma EntryDone(node: Json, todo: set<string>, k: string, done: seq<Candidate>, first: seq<Candidate>)
    requires node.Obj? && todo <= node.fields.Keys && k in todo && Traversal(node.fields[k], first)
    requires forall rest :: EntryTraversal(node, todo, rest) ==> EntryTraversal(node, node.fields.Keys, done + rest)
    ensures forall rest :: EntryTraversal(node, todo - {k}, rest) ==> EntryTraversal(node, node.fields.Keys, done + first + rest)
  {
    forall rest | EntryTraversal(node, todo - {k}, rest)
      ensures EntryTraversal(node, node.fields.Keys, done + first + rest)
    {
      assert EntryTraversal(node, todo, first + rest);
      ConcatIsAssociative(done, first, rest);
    }
  }

  lemma NextItem(node: Json, i: nat, first: seq<Candidate>, rest: seq<Candidate>)
    requires node.Arr? && i < |node.items| && Traversal(node.items[i], first) && ItemTraversal(node, i + 1, rest)
    ensures ItemTraversal(node, i, first + rest)
  {
  }

  lemma ItemDone(node: Json, i: nat, done: seq<Candidate>, first: seq<Candidate>)
    requires node.Arr? && i < |node.items| && Traversal(node.items[i], first)
    requires forall rest :: ItemTraversal(node, i, rest) ==> ItemTraversal(node, 0, done + rest)
    ensures forall rest :: ItemTraversal(node, i + 1, rest) ==> ItemTraversal(node, 0, done + first + rest)
  {
    forall rest | ItemTraversal(node, i + 1, rest)
      ensures ItemTraversal(node, 0, done + first + rest)
    {
      NextItem(node, i, first, rest);
      ConcatIsAssociative(done, first, rest);
    }
  }
}
