/** A reader for the markup the renderer writes: it splits text into tags with attributes and characters,
    and resolves the five entities html.EscapeString produces. */
module Markup {
  import opened Collections
  import opened Text

  datatype Attribute = Attribute(name: string, value: string)
  datatype Event =
    | Open(name: string, attributes: seq<Attribute>)
    | Void(name: string, attributes: seq<Attribute>)
    | Close(name: string)
    | Character(c: char)
    | Broken

  // Reading

  /** The first occurrence of c, or the end. */
  function Until(s: string, c: char): (n: nat)
    ensures n <= |s| && (n < |s| ==> s[n] == c)
  {
    if s == [] || s[0] == c then 0 else 1 + Until(s[1..], c)
  }

  /** The first character and the length of the text that stands for it. */
  function Decode(s: string): (r: (char, nat))
    requires s != []
    ensures 0 < r.1 <= |s|
  {
    if HasPrefix(s, "&amp;") then ('&', 5)
    else if HasPrefix(s, "&#39;") then ('\'', 5)
    else if HasPrefix(s, "&lt;") then ('<', 4)
    else if HasPrefix(s, "&gt;") then ('>', 4)
    else if HasPrefix(s, "&#34;") then ('"', 5)
    else (s[0], 1)
  }

  function Unescape(s: string): string {
    if s == [] then [] else [Decode(s).0] + Unescape(s[Decode(s).1..])
  }

  /** A list of name="value" pairs, each after a blank. */
  function ReadAttributes(s: string): Option<seq<Attribute>> {
    if s == [] then Some([])
    else
      var open := Until(s, '"');
      if s[0] != ' ' || open == |s| || open < 2 || s[open - 1] != '=' then None
      else
        var tail := s[open + 1..];
        var close := Until(tail, '"');
        if close == |tail| then None
        else
          var rest := ReadAttributes(tail[close + 1..]);
          if rest.None? then None
          else Some([Attribute(s[1..open - 1], Unescape(tail[..close]))] + rest.value)
  }

  /** The text between '<' and '>'. */
  function ReadTag(text: string): Event {
    if text != [] && text[0] == '/' then Close(text[1..])
    else
      var isVoid := text != [] && text[|text| - 1] == '/';
      var body := if isVoid then text[..|text| - 1] else text;
      var n := Until(body, ' ');
      var attributes := ReadAttributes(body[n..]);
      if attributes.None? then Broken
      else if isVoid then Void(body[..n], attributes.value)
      else Open(body[..n], attributes.value)
  }

  function Read(html: string): seq<Event> {
    if html == [] then []
    else if html[0] == '<' then
      var n := Until(html[1..], '>');
      if n + 1 == |html| then [Broken] else [ReadTag(html[1..n + 1])] + Read(html[n + 2..])
    else
      [Character(Decode(html).0)] + Read(html[Decode(html).1..])
  }

  /** The elements left open, if every end tag met its start tag. */
  function Unclosed(events: seq<Event>, stack: seq<string>): Option<seq<string>> {
    if events == [] then Some(stack)
    else
      match events[0]
      case Open(name, _) => Unclosed(events[1..], [name] + stack)
      case Close(name) => if stack == [] || stack[0] != name then None else Unclosed(events[1..], stack[1..])
      case Broken => None
      case _ => Unclosed(events[1..], stack)
  }

  predicate Balanced(html: string) {
    Unclosed(Read(html), []) == Some([])
  }

  /** The characters outside tags. */
  function Characters(events: seq<Event>): string {
    if events == [] then []
    else (if events[0].Character? then [events[0].c] else []) + Characters(events[1..])
  }

  function PlainText(html: string): string {
    Characters(Read(html))
  }

  // Writing

  /** html.EscapeString */
  function EscapeChar(c: char): (e: string)
    ensures e != [] && '<' !in e && '>' !in e && '"' !in e
  {
    if c == '&' then "&amp;"
    else if c == '\'' then "&#39;"
    else if c == '<' then "&lt;"
    else if c == '>' then "&gt;"
    else if c == '"' then "&#34;"
    else [c]
  }

  function Escape(s: string): string {
    if s == [] then [] else EscapeChar(s[0]) + Escape(s[1..])
  }

  function AttributeText(attributes: seq<Attribute>): string {
    if attributes == [] then []
    else
      " " + attributes[0].name + "=\"" + Escape(attributes[0].value) + "\"" + AttributeText(attributes[1..])
  }

  function StartTag(name: string, attributes: seq<Attribute>): string {
    "<" + name + AttributeText(attributes) + ">"
  }

  function VoidTag(name: string, attributes: seq<Attribute>): string {
    "<" + name + AttributeText(attributes) + "/>"
  }

  function EndTag(name: string): string {
    "</" + name + ">"
  }

  // What is written is read

  lemma {:induction false} UntilAfter(s: string, c: char, rest: string)
    requires c !in s
    ensures Until(s + [c] + rest, c) == |s|
  {
    if s != [] {
      assert (s + [c] + rest)[1..] == s[1..] + [c] + rest;
      UntilAfter(s[1..], c, rest);
    }
  }

  lemma {:induction false} UntilEnd(s: string, c: char)
    requires c !in s
    ensures Until(s, c) == |s|
  {
    if s != [] {
      UntilEnd(s[1..], c);
    }
  }

  lemma {:induction false} EscapeIsSafe(s: string)
    ensures '<' !in Escape(s) && '>' !in Escape(s) && '"' !in Escape(s)
  {
    if s != [] {
      EscapeIsSafe(s[1..]);
    }
  }

  lemma EscapedCharDecodes(c: char, rest: string)
    ensures Decode(EscapeChar(c) + rest) == (c, |EscapeChar(c)|)
    ensures (EscapeChar(c) + rest)[0] != '<'
  {
    var s := EscapeChar(c) + rest;
    assert HasPrefix(s, EscapeChar(c));
    if EscapeChar(c) == [c] {
      assert s[0] == c && c != '&';
    } else {
      assert |EscapeChar(c)| > 1 && EscapeChar(c)[1] == s[1];
      assert |EscapeChar(c)| > 2 && EscapeChar(c)[2] == s[2];
      assert |EscapeChar(c)| > 3 && EscapeChar(c)[3] == s[3];
    }
  }

  lemma {:induction false} UnescapeUndoesEscape(s: string)
    ensures Unescape(Escape(s)) == s
  {
    if s != [] {
      EscapedCharDecodes(s[0], Escape(s[1..]));
      UnescapeUndoesEscape(s[1..]);
      assert Escape(s)[|EscapeChar(s[0])|..] == Escape(s[1..]);
    }
  }

  /** A name that no delimiter can cut short. */
  predicate PlainName(name: string) {
    && name != [] && name[0] != '/' && name[|name| - 1] != '/'
    && ' ' !in name && '"' !in name && '=' !in name && '>' !in name && '<' !in name
  }

  predicate PlainNames(attributes: seq<Attribute>) {
    forall i | 0 <= i < |attributes| :: PlainName(attributes[i].name)
  }

  /** Where the first pair of a non-empty list has its delimiters. */
  lemma FirstAttributeSplits(name: string, value: string, more: string)
    requires PlainName(name) && '"' !in value
    ensures var s := " " + name + "=\"" + value + "\"" + more;
            var open := |name| + 2;
            && s[0] == ' ' && Until(s, '"') == open && s[open - 1] == '=' && s[1..open - 1] == name
            && Until(s[open + 1..], '"') == |value| && s[open + 1..][..|value|] == value
            && s[open + 1..][|value| + 1..] == more
  {
    var s, head, open := " " + name + "=\"" + value + "\"" + more, " " + name + "=", |name| + 2;
    assert s == head + ['"'] + (value + "\"" + more);
    UntilAfter(head, '"', value + "\"" + more);
    assert s[open + 1..] == value + ['"'] + more;
    UntilAfter(value, '"', more);
    assert s[..open] == head;
    assert s[1..open - 1] == head[1..open - 1];
  }

  lemma {:induction false} AttributesAreRead(attributes: seq<Attribute>)
    requires PlainNames(attributes)
    ensures ReadAttributes(AttributeText(attributes)) == Some(attributes)
  {
    if attributes != [] {
      var a := attributes[0];
      EscapeIsSafe(a.value);
      FirstAttributeSplits(a.name, Escape(a.value), AttributeText(attributes[1..]));
      UnescapeUndoesEscape(a.value);
      AttributesAreRead(attributes[1..]);
      assert [Attribute(a.name, a.value)] + attributes[1..] == attributes;
    }
  }

  lemma {:induction false} AttributeTextIsSafe(attributes: seq<Attribute>)
    requires PlainNames(attributes)
    ensures '>' !in AttributeText(attributes)
    ensures AttributeText(attributes) != [] ==>
              AttributeText(attributes)[0] == ' ' && AttributeText(attributes)[|AttributeText(attributes)| - 1] == '"'
  {
    if attributes != [] {
      EscapeIsSafe(attributes[0].value);
      AttributeTextIsSafe(attributes[1..]);
    }
  }

  /** A start tag's text splits at its first blank. */
  lemma TagTextSplits(name: string, attributes: seq<Attribute>)
    requires PlainName(name) && PlainNames(attributes)
    ensures var body := name + AttributeText(attributes);
            && Until(body, ' ') == |name| && body[..|name|] == name && body[|name|..] == AttributeText(attributes)
            && body[0] != '/' && body[|body| - 1] != '/'
  {
    var more := AttributeText(attributes);
    var body := name + more;
    AttributeTextIsSafe(attributes);
    if more == [] {
      assert body == name;
      UntilEnd(name, ' ');
    } else {
      assert body == name + [' '] + more[1..];
      UntilAfter(name, ' ', more[1..]);
    }
  }

  lemma TagsAreRead(name: string, attributes: seq<Attribute>)
    requires PlainName(name) && PlainNames(attributes)
    ensures ReadTag(name + AttributeText(attributes)) == Open(name, attributes)
    ensures ReadTag(name + AttributeText(attributes) + "/") == Void(name, attributes)
  {
    var body := name + AttributeText(attributes);
    TagTextSplits(name, attributes);
    AttributesAreRead(attributes);
    TagBodyIsRead(body, |name|, attributes);
  }

  lemma TagBodyIsRead(body: string, n: nat, attributes: seq<Attribute>)
    requires body != [] && body[0] != '/' && body[|body| - 1] != '/'
    requires n <= |body| && Until(body, ' ') == n && ReadAttributes(body[n..]) == Some(attributes)
    ensures ReadTag(body) == Open(body[..n], attributes)
    ensures ReadTag(body + "/") == Void(body[..n], attributes)
  {
    assert (body + "/")[..|body|] == body;
  }

  /** html reads as these events, whatever follows it. */
  ghost predicate ReadsAs(html: string, events: seq<Event>) {
    forall rest {:trigger Read(html + rest)} :: Read(html + rest) == events + Read(rest)
  }

  lemma NothingReads()
    ensures ReadsAs("", [])
  {
    forall rest ensures Read("" + rest) == [] + Read(rest) {
      assert "" + rest == rest;
    }
  }

  lemma ReadsInSequence(a: string, b: string, events: seq<Event>, events': seq<Event>)
    requires ReadsAs(a, events) && ReadsAs(b, events')
    ensures ReadsAs(a + b, events + events')
  {
    forall rest ensures Read(a + b + rest) == events + events' + Read(rest) {
      assert Read(b + rest) == events' + Read(rest);
      assert Read(a + (b + rest)) == events + Read(b + rest);
      ConcatIsAssociative(a, b, rest);
      ConcatIsAssociative(events, events', Read(rest));
    }
  }

  lemma TagReads(text: string)
    requires '>' !in text
    ensures ReadsAs("<" + text + ">", [ReadTag(text)])
  {
    forall rest ensures Read("<" + text + ">" + rest) == [ReadTag(text)] + Read(rest) {
      var html := "<" + text + ">" + rest;
      assert html[1..] == text + ['>'] + rest;
      UntilAfter(text, '>', rest);
      assert html[1..|text| + 1] == text && html[|text| + 2..] == rest;
    }
  }

  lemma Regroup(a: string, b: string, c: string, d: string)
    ensures a + b + c + d == a + (b + c) + d && a + b + (c + d) == a + (b + c) + d
  {
  }

  lemma StartTagReads(name: string, attributes: seq<Attribute>)
    requires PlainName(name) && PlainNames(attributes)
    ensures ReadsAs(StartTag(name, attributes), [Open(name, attributes)])
  {
    AttributeTextIsSafe(attributes);
    TagsAreRead(name, attributes);
    Regroup("<", name, AttributeText(attributes), ">");
    TagReads(name + AttributeText(attributes));
  }

  lemma VoidTagReads(name: string, attributes: seq<Attribute>)
    requires PlainName(name) && PlainNames(attributes)
    ensures ReadsAs(VoidTag(name, attributes), [Void(name, attributes)])
  {
    AttributeTextIsSafe(attributes);
    TagsAreRead(name, attributes);
    var text := name + AttributeText(attributes);
    Regroup("<", name, AttributeText(attributes), "/>");
    Regroup("<", text, "/", ">");
    assert "/" + ">" == "/>";
    TagReads(text + "/");
  }

  lemma EndTagReads(name: string)
    requires PlainName(name)
    ensures ReadsAs(EndTag(name), [Close(name)])
  {
    assert ("/" + name)[1..] == name;
    TagReads("/" + name);
    assert EndTag(name) == "<" + ("/" + name) + ">";
  }

  function Spell(s: string): seq<Event> {
    seq(|s|, i requires 0 <= i < |s| => Character(s[i]))
  }

  lemma {:induction false} EscapedTextReads(s: string)
    ensures ReadsAs(Escape(s), Spell(s))
  {
    if s == [] {
      NothingReads();
    } else {
      var e := EscapeChar(s[0]);
      forall rest ensures Read(e + rest) == [Character(s[0])] + Read(rest) {
        EscapedCharDecodes(s[0], rest);
        assert (e + rest)[|e|..] == rest;
      }
      EscapedTextReads(s[1..]);
      ReadsInSequence(e, Escape(s[1..]), [Character(s[0])], Spell(s[1..]));
      assert Spell(s) == [Character(s[0])] + Spell(s[1..]);
    }
  }

  // Balance and text of event lists

  /** The list opens and closes the same elements, whatever is open around it. */
  ghost predicate Nested(events: seq<Event>) {
    forall rest, stack {:trigger Unclosed(events + rest, stack)} :: Unclosed(events + rest, stack) == Unclosed(rest, stack)
  }

  lemma NestedInSequence(a: seq<Event>, b: seq<Event>)
    requires Nested(a) && Nested(b)
    ensures Nested(a + b)
  {
    forall rest, stack ensures Unclosed(a + b + rest, stack) == Unclosed(rest, stack) {
      assert a + b + rest == a + (b + rest);
      assert Unclosed(b + rest, stack) == Unclosed(rest, stack);
    }
  }

  lemma NestedInElement(name: string, attributes: seq<Attribute>, inner: seq<Event>)
    requires Nested(inner)
    ensures Nested([Open(name, attributes)] + inner + [Close(name)])
  {
    var events := [Open(name, attributes)] + inner + [Close(name)];
    forall rest, stack ensures Unclosed(events + rest, stack) == Unclosed(rest, stack) {
      var tail := [Close(name)] + rest;
      assert (events + rest)[1..] == inner + tail;
      assert Unclosed(inner + tail, [name] + stack) == Unclosed(tail, [name] + stack);
      assert tail[1..] == rest && ([name] + stack)[1..] == stack;
    }
  }

  lemma SingleIsNested(event: Event)
    requires event.Character? || event.Void?
    ensures Nested([event])
  {
    forall rest, stack ensures Unclosed([event] + rest, stack) == Unclosed(rest, stack) {
      assert ([event] + rest)[1..] == rest;
    }
  }

  lemma {:induction false} SpelledIsNested(s: string)
    ensures Nested(Spell(s))
  {
    if s == [] {
      forall rest, stack ensures Unclosed(Spell(s) + rest, stack) == Unclosed(rest, stack) {
        assert Spell(s) + rest == rest;
      }
    } else {
      SingleIsNested(Character(s[0]));
      SpelledIsNested(s[1..]);
      NestedInSequence([Character(s[0])], Spell(s[1..]));
      assert Spell(s) == [Character(s[0])] + Spell(s[1..]);
    }
  }

  lemma {:induction false} CharactersInSequence(a: seq<Event>, b: seq<Event>)
    ensures Characters(a + b) == Characters(a) + Characters(b)
  {
    if a == [] {
      assert a + b == b;
    } else {
      var head := if a[0].Character? then [a[0].c] else [];
      CharactersInSequence(a[1..], b);
      assert (a + b)[0] == a[0] && (a + b)[1..] == a[1..] + b;
      assert Characters(a + b) == head + Characters(a[1..] + b);
      ConcatIsAssociative(head, Characters(a[1..]), Characters(b));
    }
  }

  lemma CharactersInElement(name: string, attributes: seq<Attribute>, inner: seq<Event>)
    ensures Characters([Open(name, attributes)] + inner + [Close(name)]) == Characters(inner)
  {
    var head, tail := [Open(name, attributes)], [Close(name)];
    CharactersInSequence(head + inner, tail);
    CharactersInSequence(head, inner);
    assert head[1..] == [] && tail[1..] == [];
  }

  lemma {:induction false} SpelledCharacters(s: string)
    ensures Characters(Spell(s)) == s
  {
    if s != [] {
      assert Spell(s)[1..] == Spell(s[1..]);
      SpelledCharacters(s[1..]);
    }
  }
}
