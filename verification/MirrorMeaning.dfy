/** What the printed description says, by the meaning of HTML: the document's own nodes, marks, links and images. */
module MirrorMeaning {
  import opened Text
  import opened Json
  import opened Markup
  import opened MirrorRenderer

  /** What a node or a mark holds besides its type. */
  datatype Detail = NoDetail | Level(n: nat) | Href(url: string)

  datatype Item =
    | Enter(kind: string, detail: Detail)
    | Leave(kind: string)
    | Letter(c: char)
    | LineBreak
    | Picture(src: string, alt: string)
    | Unknown

  // Reading HTML

  /** Headings, lists, paragraphs and phrases of HTML, as the types of a document. */
  function KindOf(name: string): string {
    match name
    case "p" => "paragraph"
    case "h1" => "heading"
    case "h2" => "heading"
    case "h3" => "heading"
    case "h4" => "heading"
    case "h5" => "heading"
    case "h6" => "heading"
    case "ul" => "bullet_list"
    case "ol" => "ordered_list"
    case "li" => "list_item"
    case "strong" => "bold"
    case "em" => "italic"
    case "u" => "underline"
    case "s" => "strike"
    case "code" => "code"
    case "a" => "link"
    case _ => ""
  }

  function DetailOf(name: string, attributes: seq<Attribute>): Detail {
    match name
    case "h1" => Level(1)
    case "h2" => Level(2)
    case "h3" => Level(3)
    case "h4" => Level(4)
    case "h5" => Level(5)
    case "h6" => Level(6)
    case "a" => if attributes != [] then Href(attributes[0].value) else NoDetail
    case _ => NoDetail
  }

  /** A link opens another page and names no referrer; no other element but an image has attributes. */
  predicate Usual(name: string, attributes: seq<Attribute>) {
    if name == "a" then
      |attributes| == 3 && attributes[0].name == "href"
      && attributes[1] == Attribute("target", "_blank") && attributes[2] == Attribute("rel", "noreferrer")
    else if name == "img" then
      |attributes| == 2 && attributes[0].name == "src" && attributes[1].name == "alt"
    else attributes == []
  }

  function Meaning(e: Event): Item {
    match e
    case Open(name, attributes) =>
      if KindOf(name) != "" && Usual(name, attributes) then Enter(KindOf(name), DetailOf(name, attributes)) else Unknown
    case Close(name) => if KindOf(name) != "" then Leave(KindOf(name)) else Unknown
    case Void(name, attributes) =>
      if !Usual(name, attributes) then Unknown
      else if name == "br" then LineBreak
      else if name == "img" then Picture(attributes[0].value, attributes[1].value)
      else Unknown
    case Character(c) => Letter(c)
    case Broken => Unknown
  }

  function Meanings(events: seq<Event>): seq<Item> {
    seq(|events|, i requires 0 <= i < |events| => Meaning(events[i]))
  }

  // The document

  predicate IsBlock(kind: string) {
    kind == "paragraph" || kind == "heading" || kind == "bullet_list" || kind == "ordered_list" || kind == "list_item"
  }

  predicate IsMark(kind: string) {
    kind == "bold" || kind == "italic" || kind == "underline" || kind == "strike" || kind == "code" || kind == "link"
  }

  /** A stated level from 1 to 6 counts without its fraction, anything else as 2. */
  function StatedLevel(m: map<string, Json>): nat {
    var attrs := ObjectAt(m, "attrs");
    if "level" !in attrs || !attrs["level"].Num? then 2
    else
      var n := attrs["level"].n;
      if n < 1.0 || n > 6.0 then 2
      else if n < 2.0 then 1
      else if n < 3.0 then 2
      else if n < 4.0 then 3
      else if n < 5.0 then 4
      else if n < 6.0 then 5
      else 6
  }

  function Letters(s: string): seq<Item> {
    seq(|s|, i requires 0 <= i < |s| => Letter(s[i]))
  }

  /** The marks around a text, the first innermost; unknown ones and links to nowhere do not show. */
  function Marked(marks: seq<Json>, items: seq<Item>): seq<Item> {
    if marks == [] then items
    else
      var kind := if marks[0].Obj? then StringAt(marks[0].fields, "type") else "";
      var url := if marks[0].Obj? then StringAt(ObjectAt(marks[0].fields, "attrs"), "href") else "";
      Marked(marks[1..], if !IsMark(kind) || (kind == "link" && TrimSpace(url) == "") then items
                         else [Enter(kind, if kind == "link" then Href(url) else NoDetail)] + items + [Leave(kind)])
  }

  /** The document itself: block nodes with their own types and levels, marked texts, line breaks and images, in order. */
  function Outline(node: Json): seq<Item>
    decreases node
  {
    match node
    case Obj(m) =>
      var kind := StringAt(m, "type");
      var inner := if HasList(m, "content") then OutlineAll(m["content"].items) else [];
      if kind == "text" then (if StringAt(m, "text") == "" then [] else Marked(ListAt(m, "marks"), Letters(StringAt(m, "text"))))
      else if kind == "hard_break" then [LineBreak]
      else if kind == "image" then
        var src, alt := StringAt(ObjectAt(m, "attrs"), "src"), StringAt(ObjectAt(m, "attrs"), "alt");
        if TrimSpace(src) == "" then [] else [Picture(src, alt)]
      else if IsBlock(kind) then
        [Enter(kind, if kind == "heading" then Level(StatedLevel(m)) else NoDetail)] + inner + [Leave(kind)]
      else inner
    case Arr(items) => OutlineAll(items)
    case _ => []
  }

  function OutlineAll(children: seq<Json>): seq<Item>
    decreases children
  {
    if children == [] then [] else Outline(children[0]) + OutlineAll(children[1..])
  }

  // The output says what the document says

  lemma MeaningsInSequence(a: seq<Event>, b: seq<Event>)
    ensures Meanings(a + b) == Meanings(a) + Meanings(b)
  {
  }

  lemma MeaningsAround(open: Event, events: seq<Event>, close: Event)
    ensures Meanings([open] + events + [close]) == [Meaning(open)] + Meanings(events) + [Meaning(close)]
  {
    MeaningsInSequence([open] + events, [close]);
    MeaningsInSequence([open], events);
  }

  lemma SpellingIsLetters(s: string)
    ensures Meanings(Spell(s)) == Letters(s)
  {
  }

  lemma LevelIsStated(m: map<string, Json>)
    ensures LevelOf(m) == StatedLevel(m)
    ensures KindOf(HeadingName(LevelOf(m))) == "heading" && DetailOf(HeadingName(LevelOf(m)), []) == Level(LevelOf(m))
    ensures HeadingName(LevelOf(m)) != "a" && HeadingName(LevelOf(m)) != "img"
  {
    var n := LevelOf(m);
    assert HeadingName(n) == if n == 1 then "h1" else if n == 2 then "h2" else if n == 3 then "h3" else if n == 4 then "h4"
                             else if n == 5 then "h5" else "h6";
  }

  /** An element that stands for a block or a mark. */
  ghost predicate Tells(name: string, attributes: seq<Attribute>, kind: string, detail: Detail) {
    kind != "" && KindOf(name) == kind && DetailOf(name, attributes) == detail && Usual(name, attributes)
  }

  lemma ToldAround(name: string, attributes: seq<Attribute>, kind: string, detail: Detail, events: seq<Event>)
    requires Tells(name, attributes, kind, detail)
    ensures Meanings([Open(name, attributes)] + events + [Close(name)]) == [Enter(kind, detail)] + Meanings(events) + [Leave(kind)]
  {
    MeaningsAround(Open(name, attributes), events, Close(name));
  }

  lemma MarkTells(mark: Json)
    ensures var kind := if mark.Obj? then StringAt(mark.fields, "type") else "";
            var url := if mark.Obj? then StringAt(ObjectAt(mark.fields, "attrs"), "href") else "";
            match MarkElement(mark)
            case None => !IsMark(kind) || (kind == "link" && TrimSpace(url) == "")
            case Some(e) => IsMark(kind) && !(kind == "link" && TrimSpace(url) == "")
                            && Tells(e.name, e.attributes, kind, if kind == "link" then Href(url) else NoDetail)
  {
  }

  lemma {:induction false} MarksAreTold(marks: seq<Json>, events: seq<Event>)
    ensures Meanings(WrapEvents(marks, events)) == Marked(marks, Meanings(events))
    decreases marks
  {
    if marks != [] {
      MarkTells(marks[0]);
      match MarkElement(marks[0])
      case None => MarksAreTold(marks[1..], events);
      case Some(e) =>
        var kind, url := StringAt(marks[0].fields, "type"), StringAt(ObjectAt(marks[0].fields, "attrs"), "href");
        ToldAround(e.name, e.attributes, kind, if kind == "link" then Href(url) else NoDetail, events);
        MarksAreTold(marks[1..], [Open(e.name, e.attributes)] + events + [Close(e.name)]);
    }
  }

  lemma BlockTells(m: map<string, Json>)
    ensures var kind := StringAt(m, "type");
            match BlockName(m)
            case None => !IsBlock(kind)
            case Some(name) => IsBlock(kind) && Tells(name, [], kind, if kind == "heading" then Level(StatedLevel(m)) else NoDetail)
  {
    LevelIsStated(m);
  }

  lemma BlockIsTold(m: map<string, Json>, events: seq<Event>)
    ensures var kind := StringAt(m, "type");
            var block := match BlockName(m) case None => events case Some(name) => [Open(name, [])] + events + [Close(name)];
            Meanings(block) == if !IsBlock(kind) then Meanings(events)
                               else [Enter(kind, if kind == "heading" then Level(StatedLevel(m)) else NoDetail)]
                                    + Meanings(events) + [Leave(kind)]
  {
    var kind := StringAt(m, "type");
    BlockTells(m);
    match BlockName(m)
    case None =>
    case Some(name) => ToldAround(name, [], kind, if kind == "heading" then Level(StatedLevel(m)) else NoDetail, events);
  }

  lemma ImageIsTold(m: map<string, Json>)
    ensures var src, alt := StringAt(ObjectAt(m, "attrs"), "src"), StringAt(ObjectAt(m, "attrs"), "alt");
            var image := match ImageAttributes(m) case None => [] case Some(attributes) => [Void("img", attributes)];
            Meanings(image) == if TrimSpace(src) == "" then [] else [Picture(src, alt)]
  {
  }

  lemma {:induction false} NodeIsTold(node: Json)
    ensures Meanings(EventsOf(node)) == Outline(node)
    decreases node
  {
    match node
    case Arr(items) => ChildrenAreTold(items);
    case Obj(m) =>
      var kind := StringAt(m, "type");
      if kind == "text" {
        SpellingIsLetters(StringAt(m, "text"));
        MarksAreTold(ListAt(m, "marks"), Spell(StringAt(m, "text")));
      } else if kind == "image" {
        ImageIsTold(m);
      } else if kind == "hard_break" {
        assert Usual("br", []);
      } else {
        if HasList(m, "content") {
          ChildrenAreTold(m["content"].items);
          BlockIsTold(m, EventsOfAll(m["content"].items));
        } else {
          BlockIsTold(m, []);
        }
      }
    case _ =>
  }

  lemma {:induction false} ChildrenAreTold(children: seq<Json>)
    ensures Meanings(EventsOfAll(children)) == OutlineAll(children)
    decreases children
  {
    if children != [] {
      NodeIsTold(children[0]);
      ChildrenAreTold(children[1..]);
      MeaningsInSequence(EventsOf(children[0]), EventsOfAll(children[1..]));
    }
  }

  /** For every tree: reading the output by the meaning of its tags gives the tree's own types, levels, marks, links, images,
      line breaks and characters in order, and nothing else. */
  lemma OutputTellsDocument(node: Json)
    ensures Meanings(Read(Render(node))) == Outline(node)
  {
    MirrorReadsBack(node);
    NodeIsTold(node);
  }

  /** So documents that print alike are alike, up to nodes that do not show. */
  lemma SameOutputSameDocument(a: Json, b: Json)
    requires Render(a) == Render(b)
    ensures Outline(a) == Outline(b)
  {
    OutputTellsDocument(a);
    OutputTellsDocument(b);
  }
}
