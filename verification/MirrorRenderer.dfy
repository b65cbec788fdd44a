/** renderLumaDescriptionMirrorHTML of backend/api/import.go: a document tree printed as HTML. */
module MirrorRenderer {
  import opened Text
  import opened Json
  import opened Markup

  // What the renderer prints

  function Around(name: string, attributes: seq<Attribute>, inner: string): string {
    StartTag(name, attributes) + inner + EndTag(name)
  }

  function LevelOf(m: map<string, Json>): nat
    ensures 1 <= LevelOf(m) <= 6
  {
    var attrs := ObjectAt(m, "attrs");
    if "level" in attrs && attrs["level"].Num? && 1.0 <= attrs["level"].n <= 6.0 then attrs["level"].n.Floor else 2
  }

  function HeadingName(level: nat): string
    requires 1 <= level <= 6
  {
    ['h', '0' + level as char]
  }

  /** The element a block node becomes; other nodes are transparent. */
  function BlockName(m: map<string, Json>): Option<string> {
    match StringAt(m, "type")
    case "paragraph" => Some("p")
    case "heading" => Some(HeadingName(LevelOf(m)))
    case "bullet_list" => Some("ul")
    case "ordered_list" => Some("ol")
    case "list_item" => Some("li")
    case _ => None
  }

  datatype Element = Element(name: string, attributes: seq<Attribute>)

  /** The element a mark wraps its text in; unknown marks and links to nowhere add nothing. */
  function MarkElement(mark: Json): Option<Element> {
    if !mark.Obj? then None
    else
      match StringAt(mark.fields, "type")
      case "bold" => Some(Element("strong", []))
      case "italic" => Some(Element("em", []))
      case "underline" => Some(Element("u", []))
      case "strike" => Some(Element("s", []))
      case "code" => Some(Element("code", []))
      case "link" =>
        var href := StringAt(ObjectAt(mark.fields, "attrs"), "href");
        if TrimSpace(href) == "" then None
        else Some(Element("a", [Attribute("href", href), Attribute("target", "_blank"), Attribute("rel", "noreferrer")]))
      case _ => None
  }

  function Wrap(marks: seq<Json>, html: string): string {
    if marks == [] then html
    else
      var element := MarkElement(marks[0]);
      Wrap(marks[1..], if element.None? then html else Around(element.value.name, element.value.attributes, html))
  }

  function ImageAttributes(m: map<string, Json>): Option<seq<Attribute>> {
    var attrs := ObjectAt(m, "attrs");
    var src := StringAt(attrs, "src");
    if TrimSpace(src) == "" then None else Some([Attribute("src", src), Attribute("alt", StringAt(attrs, "alt"))])
  }

  function Render(node: Json): string
    decreases node
  {
    match node
    case Obj(m) =>
      var kind := StringAt(m, "type");
      if kind == "hard_break" then VoidTag("br", [])
      else if kind == "image" then
        (match ImageAttributes(m) case None => "" case Some(attributes) => VoidTag("img", attributes))
      else if kind == "text" then
        var text := StringAt(m, "text");
        if text == "" then "" else Wrap(ListAt(m, "marks"), Escape(text))
      else
        var inner := if HasList(m, "content") then RenderAll(m["content"].items) else "";
        (match BlockName(m) case None => inner case Some(name) => Around(name, [], inner))
    case Arr(items) => RenderAll(items)
    case _ => ""
  }

  function RenderAll(children: seq<Json>): string
    decreases children
  {
    if children == [] then "" else Render(children[0]) + RenderAll(children[1..])
  }

  // How it prints

  method RenderMark(rawMark: Json, html: string) returns (out: string)
    ensures out == Wrap([rawMark], html)
  {
    out := html;
    if !rawMark.Obj? {
      return;
    }
    var mark := rawMark.fields;
    match StringAt(mark, "type")
    case "bold" => out := "<strong>" + out + "</strong>";
    case "italic" => out := "<em>" + out + "</em>";
    case "underline" => out := "<u>" + out + "</u>";
    case "strike" => out := "<s>" + out + "</s>";
    case "code" => out := "<code>" + out + "</code>";
    case "link" =>
      var href := StringAt(ObjectAt(mark, "attrs"), "href");
      if TrimSpace(href) != "" {
        LinkTag(href);
        out := "<a href=\"" + Escape(href) + "\" target=\"_blank\" rel=\"noreferrer\">" + out + "</a>";
      }
    case _ =>
  }

  method RenderText(v: map<string, Json>) returns (html: string)
    ensures html == if StringAt(v, "text") == "" then "" else Wrap(ListAt(v, "marks"), Escape(StringAt(v, "text")))
  {
    var text := StringAt(v, "text");
    if text == "" {
      return "";
    }
    html := Escape(text);
    var marks := ListAt(v, "marks");
    for i := 0 to |marks|
      invariant Wrap(marks[i..], html) == Wrap(marks, Escape(text))
    {
      assert marks[i..][1..] == marks[i + 1..];
      html := RenderMark(marks[i], html);
    }
  }

  method RenderImage(v: map<string, Json>) returns (html: string)
    ensures html == match ImageAttributes(v) case None => "" case Some(attributes) => VoidTag("img", attributes)
  {
    var attrs := ObjectAt(v, "attrs");
    var src, alt := StringAt(attrs, "src"), StringAt(attrs, "alt");
    if TrimSpace(src) == "" {
      return "";
    }
    ImageTag(src, alt);
    html := "<img src=\"" + Escape(src) + "\" alt=\"" + Escape(alt) + "\"/>";
  }

  method RenderBlock(v: map<string, Json>, inner: string) returns (html: string)
    ensures html == match BlockName(v) case None => inner case Some(name) => Around(name, [], inner)
  {
    match StringAt(v, "type")
    case "paragraph" => html := "<p>" + inner + "</p>";
    case "heading" =>
      var tag := "h" + ['0' + LevelOf(v) as char];
      html := "<" + tag + ">" + inner + "</" + tag + ">";
    case "bullet_list" => html := "<ul>" + inner + "</ul>";
    case "ordered_list" => html := "<ol>" + inner + "</ol>";
    case "list_item" => html := "<li>" + inner + "</li>";
    case _ => html := inner;
  }

  /** renderLumaDescriptionMirrorHTML */
  method RenderLumaDescriptionMirrorHTML(node: Json) returns (html: string)
    ensures html == Render(node)
    decreases node
  {
    if node.Arr? {
      html := RenderMirrorChildren(node.items);
      return;
    }
    if !node.Obj? {
      return "";
    }
    var v := node.fields;
    var inner := "";
    if HasList(v, "content") {
      inner := RenderMirrorChildren(v["content"].items);
    }
    match StringAt(v, "type")
    case "hard_break" => html := "<br/>";
    case "image" => html := RenderImage(v);
    case "text" => html := RenderText(v);
    case _ => html := RenderBlock(v, inner);
  }

  method RenderMirrorChildren(children: seq<Json>) returns (html: string)
    ensures html == RenderAll(children)
    decreases children
  {
    html := "";
    for i := 0 to |children|
      invariant html + RenderAll(children[i..]) == RenderAll(children)
    {
      assert children[i..][1..] == children[i + 1..];
      var child := RenderLumaDescriptionMirrorHTML(children[i]);
      html := html + child;
    }
  }

  lemma OnePair(name: string, value: string)
    ensures AttributeText([Attribute(name, value)]) == " " + name + "=\"" + Escape(value) + "\""
  {
  }

  lemma PairThen(name: string, value: string, more: seq<Attribute>)
    ensures AttributeText([Attribute(name, value)] + more)
         == " " + name + "=\"" + Escape(value) + "\"" + AttributeText(more)
  {
    assert ([Attribute(name, value)] + more)[1..] == more;
  }

  lemma {:induction false} PlainTextEscapesToItself(s: string)
    requires '&' !in s && '\'' !in s && '<' !in s && '>' !in s && '"' !in s
    ensures Escape(s) == s
  {
    if s != [] {
      PlainTextEscapesToItself(s[1..]);
    }
  }

  lemma LinkPieces()
    ensures " " + "href" + "=\"" == " href=\"" && "<" + "a" == "<a" && "<a" + " href=\"" == "<a href=\""
    ensures " " + "rel" + "=\"" == " rel=\"" && " " + "target" + "=\"" == " target=\""
  {
  }

  lemma LinkTail(target: string, rel: string)
    requires Escape(target) == target && Escape(rel) == rel
    ensures AttributeText([Attribute("target", target), Attribute("rel", rel)])
         == " target=\"" + target + "\"" + (" rel=\"" + rel + "\"")
  {
    OnePair("rel", rel);
    PairThen("target", target, [Attribute("rel", rel)]);
    LinkPieces();
    assert [Attribute("target", target)] + [Attribute("rel", rel)] == [Attribute("target", target), Attribute("rel", rel)];
  }

  lemma LinkTagOf(href: string, target: string, rel: string, tail: string)
    requires Escape(target) == target && Escape(rel) == rel
    requires "\"" + (" target=\"" + target + "\"" + (" rel=\"" + rel + "\"")) + ">" == tail
    ensures StartTag("a", [Attribute("href", href), Attribute("target", target), Attribute("rel", rel)])
         == "<a href=\"" + Escape(href) + tail
  {
    var more := [Attribute("target", target), Attribute("rel", rel)];
    PairThen("href", href, more);
    LinkTail(target, rel);
    LinkPieces();
    RegroupPair("<a", " href=\"", Escape(href), "\"", AttributeText(more), ">");
    assert [Attribute("href", href)] + more == [Attribute("href", href), Attribute("target", target), Attribute("rel", rel)];
  }

  lemma LinkTailText()
    ensures "\"" + (" target=\"" + "_blank" + "\"" + (" rel=\"" + "noreferrer" + "\"")) + ">"
         == "\" target=\"_blank\" rel=\"noreferrer\">"
  {
  }

  lemma LinkTag(href: string)
    ensures StartTag("a", [Attribute("href", href), Attribute("target", "_blank"), Attribute("rel", "noreferrer")])
         == "<a href=\"" + Escape(href) + "\" target=\"_blank\" rel=\"noreferrer\">"
  {
    PlainLinkTexts();
    LinkTailText();
    LinkTagOf(href, "_blank", "noreferrer", "\" target=\"_blank\" rel=\"noreferrer\">");
  }

  lemma PlainLinkTexts()
    ensures Escape("_blank") == "_blank" && Escape("noreferrer") == "noreferrer"
  {
    PlainTarget();
    PlainRel();
  }

  lemma PlainTarget()
    ensures Escape("_blank") == "_blank"
  {
    PlainTextEscapesToItself("_blank");
  }

  lemma PlainRel()
    ensures Escape("noreferrer") == "noreferrer"
  {
    PlainTextEscapesToItself("noreferrer");
  }

  lemma RegroupPair(a: string, b: string, c: string, q: string, m: string, z: string)
    ensures a + (b + c + q + m) + z == (a + b) + c + (q + m + z)
  {
  }

  lemma ImagePieces()
    ensures " " + "src" + "=\"" == " src=\"" && " " + "alt" + "=\"" == " alt=\"" && "<" + "img" == "<img"
    ensures "<img" + " src=\"" == "<img src=\"" && "\"" + " alt=\"" == "\" alt=\"" && "\"" + "/>" == "\"/>"
  {
  }

  lemma RegroupTwoPairs(a: string, b: string, c: string, q: string, d: string, e: string, z: string)
    ensures a + (b + c + q + (d + e + q)) + z == (a + b) + c + (q + d) + e + (q + z)
  {
    RegroupPair(a, b, c, q, d + e + q, z);
    assert q + (d + e + q) + z == (q + d) + e + (q + z);
  }

  lemma ImageTag(src: string, alt: string)
    ensures VoidTag("img", [Attribute("src", src), Attribute("alt", alt)])
         == "<img src=\"" + Escape(src) + "\" alt=\"" + Escape(alt) + "\"/>"
  {
    OnePair("alt", alt);
    PairThen("src", src, [Attribute("alt", alt)]);
    ImagePieces();
    RegroupTwoPairs("<img", " src=\"", Escape(src), "\"", " alt=\"", Escape(alt), "/>");
    assert [Attribute("src", src)] + [Attribute("alt", alt)] == [Attribute("src", src), Attribute("alt", alt)];
  }

  // What a reader gets back

  /** The text leaves in document order; images and line breaks hide what is below them. */
  function TextOf(node: Json): string
    decreases node
  {
    match node
    case Obj(m) =>
      var kind := StringAt(m, "type");
      if kind == "text" then StringAt(m, "text")
      else if kind == "image" || kind == "hard_break" then ""
      else if HasList(m, "content") then TextOfAll(m["content"].items)
      else ""
    case Arr(items) => TextOfAll(items)
    case _ => ""
  }

  function TextOfAll(children: seq<Json>): string
    decreases children
  {
    if children == [] then "" else TextOf(children[0]) + TextOfAll(children[1..])
  }

  function WrapEvents(marks: seq<Json>, events: seq<Event>): seq<Event> {
    if marks == [] then events
    else
      var element := MarkElement(marks[0]);
      WrapEvents(marks[1..], if element.None? then events
                             else [Open(element.value.name, element.value.attributes)] + events + [Close(element.value.name)])
  }

  /** The tags and characters of the document. */
  function EventsOf(node: Json): seq<Event>
    decreases node
  {
    match node
    case Obj(m) =>
      var kind := StringAt(m, "type");
      if kind == "hard_break" then [Void("br", [])]
      else if kind == "image" then
        (match ImageAttributes(m) case None => [] case Some(attributes) => [Void("img", attributes)])
      else if kind == "text" then
        var text := StringAt(m, "text");
        if text == "" then [] else WrapEvents(ListAt(m, "marks"), Spell(text))
      else
        var inner := if HasList(m, "content") then EventsOfAll(m["content"].items) else [];
        (match BlockName(m) case None => inner case Some(name) => [Open(name, [])] + inner + [Close(name)])
    case Arr(items) => EventsOfAll(items)
    case _ => []
  }

  function EventsOfAll(children: seq<Json>): seq<Event>
    decreases children
  {
    if children == [] then [] else EventsOf(children[0]) + EventsOfAll(children[1..])
  }

  /** html reads back as well-nested events that spell the text. */
  ghost predicate Prints(html: string, events: seq<Event>, text: string) {
    ReadsAs(html, events) && Nested(events) && Characters(events) == text
  }

  lemma NothingPrints()
    ensures Prints("", [], "")
  {
    NothingReads();
    SpelledIsNested("");
    assert Spell("") == [];
  }

  lemma TextPrints(text: string)
    ensures Prints(Escape(text), Spell(text), text)
  {
    EscapedTextReads(text);
    SpelledIsNested(text);
    SpelledCharacters(text);
  }

  lemma VoidPrints(name: string, attributes: seq<Attribute>)
    requires PlainName(name) && PlainNames(attributes)
    ensures Prints(VoidTag(name, attributes), [Void(name, attributes)], "")
  {
    VoidTagReads(name, attributes);
    SingleIsNested(Void(name, attributes));
    assert [Void(name, attributes)][1..] == [];
  }

  lemma SequencePrints(a: string, b: string, events: seq<Event>, events': seq<Event>, text: string, text': string)
    requires Prints(a, events, text) && Prints(b, events', text')
    ensures Prints(a + b, events + events', text + text')
  {
    ReadsInSequence(a, b, events, events');
    NestedInSequence(events, events');
    CharactersInSequence(events, events');
  }

  lemma ElementPrints(name: string, attributes: seq<Attribute>, inner: string, events: seq<Event>, text: string)
    requires PlainName(name) && PlainNames(attributes) && Prints(inner, events, text)
    ensures Prints(Around(name, attributes, inner), [Open(name, attributes)] + events + [Close(name)], text)
  {
    StartTagReads(name, attributes);
    EndTagReads(name);
    ReadsInSequence(StartTag(name, attributes), inner, [Open(name, attributes)], events);
    ReadsInSequence(StartTag(name, attributes) + inner, EndTag(name), [Open(name, attributes)] + events, [Close(name)]);
    NestedInElement(name, attributes, events);
    CharactersInElement(name, attributes, events);
  }

  lemma MarkNamesArePlain(mark: Json)
    ensures MarkElement(mark).Some? ==> PlainName(MarkElement(mark).value.name) && PlainNames(MarkElement(mark).value.attributes)
  {
    assert PlainName("strong") && PlainName("em") && PlainName("u") && PlainName("s") && PlainName("code") && PlainName("a");
    assert PlainName("href") && PlainName("target") && PlainName("rel");
  }

  lemma BlockNamesArePlain(m: map<string, Json>)
    ensures BlockName(m).Some? ==> PlainName(BlockName(m).value)
  {
    assert PlainName("p") && PlainName("ul") && PlainName("ol") && PlainName("li");
    assert PlainName(HeadingName(LevelOf(m)));
  }

  lemma {:induction false} MarkedTextPrints(marks: seq<Json>, html: string, events: seq<Event>, text: string)
    requires Prints(html, events, text)
    ensures Prints(Wrap(marks, html), WrapEvents(marks, events), text)
  {
    if marks != [] {
      MarkNamesArePlain(marks[0]);
      match MarkElement(marks[0])
      case None => MarkedTextPrints(marks[1..], html, events, text);
      case Some(e) =>
        ElementPrints(e.name, e.attributes, html, events, text);
        MarkedTextPrints(marks[1..], Around(e.name, e.attributes, html),
                         [Open(e.name, e.attributes)] + events + [Close(e.name)], text);
    }
  }

  lemma TextNodePrints(m: map<string, Json>)
    requires StringAt(m, "type") == "text"
    ensures Prints(Render(Obj(m)), EventsOf(Obj(m)), TextOf(Obj(m)))
  {
    var text, marks := StringAt(m, "text"), ListAt(m, "marks");
    if text == "" {
      NothingPrints();
    } else {
      TextPrints(text);
      MarkedTextPrints(marks, Escape(text), Spell(text), text);
    }
  }

  lemma ImageNodePrints(m: map<string, Json>)
    requires StringAt(m, "type") == "image"
    ensures Prints(Render(Obj(m)), EventsOf(Obj(m)), TextOf(Obj(m)))
  {
    NothingPrints();
    if ImageAttributes(m).Some? {
      assert PlainName("img") && PlainName("src") && PlainName("alt");
      VoidPrints("img", ImageAttributes(m).value);
    }
  }

  /** A block around content that prints, or the content alone. */
  lemma BlockPrints(m: map<string, Json>, inner: string, events: seq<Event>, text: string)
    requires Prints(inner, events, text)
    ensures match BlockName(m)
            case None => true
            case Some(name) => Prints(Around(name, [], inner), [Open(name, [])] + events + [Close(name)], text)
  {
    BlockNamesArePlain(m);
    if BlockName(m).Some? {
      ElementPrints(BlockName(m).value, [], inner, events, text);
    }
  }

  lemma {:induction false} NodePrints(node: Json)
    ensures Prints(Render(node), EventsOf(node), TextOf(node))
    decreases node
  {
    NothingPrints();
    match node
    case Arr(items) => ChildrenPrint(items);
    case Obj(m) =>
      var kind := StringAt(m, "type");
      if kind == "hard_break" {
        assert PlainName("br");
        VoidPrints("br", []);
      } else if kind == "image" {
        ImageNodePrints(m);
      } else if kind == "text" {
        TextNodePrints(m);
      } else if HasList(m, "content") {
        var items := m["content"].items;
        ChildrenPrint(items);
        BlockPrints(m, RenderAll(items), EventsOfAll(items), TextOfAll(items));
      } else {
        BlockPrints(m, "", [], "");
      }
    case _ =>
  }

  lemma {:induction false} ChildrenPrint(children: seq<Json>)
    ensures Prints(RenderAll(children), EventsOfAll(children), TextOfAll(children))
    decreases children
  {
    if children == [] {
      NothingPrints();
    } else {
      NodePrints(children[0]);
      ChildrenPrint(children[1..]);
      SequencePrints(Render(children[0]), RenderAll(children[1..]), EventsOf(children[0]), EventsOfAll(children[1..]),
                     TextOf(children[0]), TextOfAll(children[1..]));
    }
  }

  /** For every tree: reading the output gives the document's tags and characters, with every attribute value
      unescaped to what the tree holds; the markup is balanced; and its plain text is the tree's text. */
  lemma MirrorReadsBack(node: Json)
    ensures Read(Render(node)) == EventsOf(node)
    ensures Balanced(Render(node))
    ensures PlainText(Render(node)) == TextOf(node)
  {
    NodePrints(node);
    assert Render(node) + "" == Render(node) && EventsOf(node) + Read("") == EventsOf(node);
    assert Read(Render(node) + "") == EventsOf(node) + Read("");
    assert EventsOf(node) + [] == EventsOf(node);
    assert Unclosed(EventsOf(node) + [], []) == Unclosed([], []);
  }
}
