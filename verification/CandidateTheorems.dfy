/** Every visiting order meets the same candidates, and the search finds the best description in every one. */
module CandidateTheorems {
  import opened Text
  import opened Json
  import opened CandidateSearch

  // Every traversal meets the same candidates

  /** Somewhere in node, a field offers the candidate. */
  ghost predicate Offered(node: Json, c: Candidate)
    decreases node
  {
    match node
    case Obj(m) => c in OwnCandidates(m) || exists k | k in m :: Offered(m[k], c)
    case Arr(items) => exists i | 0 <= i < |items| :: Offered(items[i], c)
    case _ => false
  }

  lemma {:induction false} TraversalMeetsAll(node: Json, order: seq<Candidate>, c: Candidate)
    requires Traversal(node, order)
    ensures c in order <==> Offered(node, c)
    decreases node, 1
  {
    match node
    case Obj(m) =>
      var rest :| order == OwnCandidates(m) + rest && EntryTraversal(node, m.Keys, rest);
      EntriesMeetAll(node, m.Keys, rest, c);
    case Arr(items) =>
      ItemsMeetAll(node, 0, order, c);
      assert OfferedFrom(node, 0, c) <==> Offered(node, c);
    case _ =>
  }

  lemma {:induction false} EntriesMeetAll(node: Json, todo: set<string>, order: seq<Candidate>, c: Candidate)
    requires node.Obj? && todo <= node.fields.Keys && EntryTraversal(node, todo, order)
    ensures c in order <==> exists k | k in todo :: Offered(node.fields[k], c)
    decreases node, 0, todo
  {
    if todo != {} {
      var k, first, rest :| k in todo && order == first + rest && Traversal(node.fields[k], first)
                            && EntryTraversal(node, todo - {k}, rest);
      TraversalMeetsAll(node.fields[k], first, c);
      EntriesMeetAll(node, todo - {k}, rest, c);
      assert forall j | j in todo :: j == k || j in todo - {k};
    }
  }

  ghost predicate OfferedFrom(node: Json, i: nat, c: Candidate)
    requires node.Arr?
  {
    exists j | i <= j < |node.items| :: Offered(node.items[j], c)
  }

  lemma OfferedNow(node: Json, i: nat, c: Candidate)
    requires node.Arr? && i < |node.items|
    ensures OfferedFrom(node, i, c) <==> Offered(node.items[i], c) || OfferedFrom(node, i + 1, c)
  {
    if OfferedFrom(node, i, c) {
      var j :| i <= j < |node.items| && Offered(node.items[j], c);
      assert j == i || i + 1 <= j;
    }
  }

  lemma {:induction false} ItemsMeetAll(node: Json, i: nat, order: seq<Candidate>, c: Candidate)
    requires node.Arr? && i <= |node.items| && ItemTraversal(node, i, order)
    ensures c in order <==> OfferedFrom(node, i, c)
    decreases node, 0, |node.items| - i
  {
    if i < |node.items| {
      var first, rest := FirstItem(node, i, order);
      TraversalMeetsAll(node.items[i], first, c);
      ItemsMeetAll(node, i + 1, rest, c);
      assert c in order <==> c in first || c in rest;
      OfferedNow(node, i, c);
    }
  }

  lemma FirstItem(node: Json, i: nat, order: seq<Candidate>) returns (first: seq<Candidate>, rest: seq<Candidate>)
    requires node.Arr? && i < |node.items| && ItemTraversal(node, i, order)
    ensures order == first + rest && Traversal(node.items[i], first) && ItemTraversal(node, i + 1, rest)
  {
    first, rest :| order == first + rest && Traversal(node.items[i], first) && ItemTraversal(node, i + 1, rest);
  }

  // Descriptions

  /** The result has the highest score of all candidates and the start, and is the start or a candidate that beats it. */
  ghost predicate Won(n: Normalizers, kind: Kind, start: Pick, order: seq<Candidate>, result: Pick) {
    && start.score <= result.score
    && (forall c | c in order :: PickOf(n, kind, c).Some? ==> PickOf(n, kind, c).value.score <= result.score)
    && (result == start || (start.score < result.score && exists c | c in order :: PickOf(n, kind, c) == Some(result)))
  }

  lemma {:induction false} SearchIsWon(n: Normalizers, s: Found, order: seq<Candidate>)
    ensures Won(n, Describing, s.description, order, ApplyAll(n, s, order).description)
    ensures Won(n, Mirroring, s.html, order, ApplyAll(n, s, order).html)
    decreases order
  {
    if order != [] {
      SearchIsWon(n, Apply(n, s, order[0]), order[1..]);
      WonFromNext(n, Describing, s.description, order, ApplyAll(n, s, order).description);
      WonFromNext(n, Mirroring, s.html, order, ApplyAll(n, s, order).html);
    }
  }

  lemma WonFromNext(n: Normalizers, kind: Kind, start: Pick, order: seq<Candidate>, result: Pick)
    requires order != [] && Won(n, kind, Better(start, PickOf(n, kind, order[0])), order[1..], result)
    ensures Won(n, kind, start, order, result)
  {
    assert forall c | c in order :: c == order[0] || c in order[1..];
    if result != Better(start, PickOf(n, kind, order[0])) {
      var c :| c in order[1..] && PickOf(n, kind, c) == Some(result);
      assert c in order;
    }
  }

  /** All candidates with this score put forward the same value. */
  ghost predicate OneWinner(n: Normalizers, kind: Kind, node: Json, score: int) {
    forall c, d | Offered(node, c) && Offered(node, d) && PickOf(n, kind, c).Some? && PickOf(n, kind, d).Some? ::
      PickOf(n, kind, c).value.score == score && PickOf(n, kind, d).value.score == score ==> PickOf(n, kind, c) == PickOf(n, kind, d)
  }

  function Chosen(s: Found, kind: Kind): Pick {
    match kind case Describing => s.description case Mirroring => s.html
  }

  lemma ChosenIsWon(n: Normalizers, s: Found, order: seq<Candidate>, kind: Kind)
    ensures Won(n, kind, Chosen(s, kind), order, Chosen(ApplyAll(n, s, order), kind))
  {
    SearchIsWon(n, s, order);
  }

  lemma TraversalsMeetAll(node: Json, a: seq<Candidate>, b: seq<Candidate>)
    requires Traversal(node, a) && Traversal(node, b)
    ensures forall c :: (c in a <==> Offered(node, c)) && (c in b <==> Offered(node, c))
  {
    forall c ensures (c in a <==> Offered(node, c)) && (c in b <==> Offered(node, c)) {
      TraversalMeetsAll(node, a, c);
      TraversalMeetsAll(node, b, c);
    }
  }

  /** Any two visiting orders end with the same score; it is the maximum over the whole document, and the value is
      the same too when one value alone attains it. */
  lemma DescriptionIsOrderIndependent(n: Normalizers, node: Json, kind: Kind, s: Found, a: seq<Candidate>, b: seq<Candidate>)
    requires Traversal(node, a) && Traversal(node, b)
    ensures var result := Chosen(ApplyAll(n, s, a), kind);
            && result.score == Chosen(ApplyAll(n, s, b), kind).score
            && (forall c | Offered(node, c) && PickOf(n, kind, c).Some? :: PickOf(n, kind, c).value.score <= result.score)
            && (result == Chosen(s, kind) || exists c :: Offered(node, c) && PickOf(n, kind, c) == Some(result))
            && (OneWinner(n, kind, node, result.score) ==> result == Chosen(ApplyAll(n, s, b), kind))
  {
    ChosenIsWon(n, s, a, kind);
    ChosenIsWon(n, s, b, kind);
    TraversalsMeetAll(node, a, b);
    SameWinner(n, kind, Chosen(s, kind), a, b, Chosen(ApplyAll(n, s, a), kind), Chosen(ApplyAll(n, s, b), kind));
  }

  lemma SameWinner(n: Normalizers, kind: Kind, start: Pick, a: seq<Candidate>, b: seq<Candidate>, x: Pick, y: Pick)
    requires Won(n, kind, start, a, x) && Won(n, kind, start, b, y) && forall c :: c in a <==> c in b
    ensures x.score == y.score
    ensures x == y || exists c, d :: c in a && d in a && PickOf(n, kind, c) == Some(x) && PickOf(n, kind, d) == Some(y)
  {
    if x != start {
      var c :| c in a && PickOf(n, kind, c) == Some(x);
      assert c in b;
    }
    if y != start {
      var d :| d in b && PickOf(n, kind, d) == Some(y);
      assert d in a;
    }
  }
}
