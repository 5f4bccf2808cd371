/**
 Reciprocal rank fusion: ranked lists are merged by the sum of 1/(60 + rank)
 over the lists that name an item. Scores are exact rationals.
 */
module RankFusion {
  import opened Ordering
  import opened Tickets

  const K := 60

  datatype Document = Document(id: string, body: string)

  // A missing entry keeps its position: later entries are not moved up.
  type Ranking = seq<Option<Document>>

  function Share(i: nat): real {
    1.0 / (K + i + 1) as real
  }

  predicate Names(entry: Option<Document>, id: string) {
    entry.Some? && entry.value.id == id
  }

  predicate Mentions(list: Ranking, id: string) {
    exists i :: 0 <= i < |list| && Names(list[i], id)
  }

  predicate Mentioned(lists: seq<Ranking>, id: string) {
    exists k :: 0 <= k < |lists| && Mentions(lists[k], id)
  }

  function ListScore(list: Ranking, id: string): (r: real)
    ensures r >= 0.0
  {
    if list == [] then 0.0
    else
      var n := |list| - 1;
      ListScore(list[..n], id) + if Names(list[n], id) then Share(n) else 0.0
  }

  function Score(lists: seq<Ranking>, id: string): (r: real)
    ensures r >= 0.0
  {
    if lists == [] then 0.0
    else Score(lists[..|lists| - 1], id) + ListScore(lists[|lists| - 1], id)
  }

  predicate Better(x: real, a: string, y: real, b: string) {
    x > y || (x == y && StrLess(a, b))
  }

  // The fusion of the lists: everything they name, once, best score first and
  // equal scores by id.
  ghost predicate Fused(ids: seq<string>, lists: seq<Ranking>) {
    && Distinct(ids)
    && (forall id :: id in ids <==> Mentioned(lists, id))
    && (forall i, j :: 0 <= i < j < |ids| ==> Better(Score(lists, ids[i]), ids[i], Score(lists, ids[j]), ids[j]))
  }

  function Ids(documents: seq<Document>): seq<string> {
    seq(|documents|, i requires 0 <= i < |documents| => documents[i].id)
  }

  /* The algorithm. */

  function Scored(scores: map<string, real>, id: string): real {
    if id in scores then scores[id] else 0.0
  }

  function ByScore(scores: map<string, real>): (string, string) -> bool {
    (a, b) => Better(Scored(scores, a), a, Scored(scores, b), b)
  }

  lemma ByScoreIsTotal(scores: map<string, real>)
    ensures StrictTotal(ByScore(scores))
  {
    var less := ByScore(scores);
    forall a: string, b: string
      ensures !(less(a, b) && less(b, a)) && (a == b || less(a, b) || less(b, a))
    {
      StrLessTrichotomy(a, b);
    }
    forall a: string, b: string, c: string | less(a, b) && less(b, c)
      ensures less(a, c)
    {
      if Scored(scores, a) == Scored(scores, b) == Scored(scores, c) {
        StrLessTransitive(a, b, c);
      }
    }
  }

  // The running totals over the lists already read and a part of the next one.
  ghost predicate Totals(scores: map<string, real>, done: seq<Ranking>, part: Ranking) {
    forall id :: Scored(scores, id) == Score(done, id) + ListScore(part, id)
  }

  // The ids met so far are recorded once each, with the newest document.
  ghost predicate Met(order: seq<string>, documents: map<string, Document>, done: seq<Ranking>, part: Ranking) {
    && Distinct(order)
    && (forall id :: id in order <==> id in documents)
    && (forall id :: id in documents <==> Mentioned(done, id) || Mentions(part, id))
    && (forall id :: id in documents ==> documents[id].id == id)
  }

  function OrElse(a: Option<Document>, b: Option<Document>): Option<Document> {
    if a.Some? then a else b
  }

  // The last document with this id, in the list and over all lists.
  function LastIn(list: Ranking, id: string): Option<Document> {
    if list == [] then None
    else if Names(list[|list| - 1], id) then list[|list| - 1]
    else LastIn(list[..|list| - 1], id)
  }

  function LastDocument(lists: seq<Ranking>, id: string): Option<Document> {
    if lists == [] then None
    else OrElse(LastIn(lists[|lists| - 1], id), LastDocument(lists[..|lists| - 1], id))
  }

  function Found(documents: map<string, Document>, id: string): Option<Document> {
    if id in documents then Some(documents[id]) else None
  }

  // Of the documents read with one id the last is kept.
  ghost predicate Kept(documents: map<string, Document>, done: seq<Ranking>, part: Ranking) {
    forall id :: Found(documents, id) == OrElse(LastIn(part, id), LastDocument(done, id))
  }

  lemma KeptStep(documents: map<string, Document>, done: seq<Ranking>, list: Ranking, i: nat)
    requires i < |list| && Kept(documents, done, list[..i])
    ensures Kept(if list[i].Some? then documents[list[i].value.id := list[i].value] else documents, done, list[..i + 1])
  {
    var next := if list[i].Some? then documents[list[i].value.id := list[i].value] else documents;
    assert list[..i + 1][..i] == list[..i];
    forall id
      ensures Found(next, id) == OrElse(LastIn(list[..i + 1], id), LastDocument(done, id))
    {
      assert Found(documents, id) == OrElse(LastIn(list[..i], id), LastDocument(done, id));
    }
  }

  lemma KeptNext(documents: map<string, Document>, lists: seq<Ranking>, k: nat)
    requires k < |lists| && Kept(documents, lists[..k], lists[k])
    ensures Kept(documents, lists[..k + 1], [])
  {
    assert lists[..k + 1][..k] == lists[..k];
    forall id
      ensures Found(documents, id) == OrElse(LastIn([], id), LastDocument(lists[..k + 1], id))
    {
      assert Found(documents, id) == OrElse(LastIn(lists[k], id), LastDocument(lists[..k], id));
    }
  }

  lemma TotalsStep(scores: map<string, real>, done: seq<Ranking>, list: Ranking, i: nat, id: string)
    requires i < |list| && Totals(scores, done, list[..i]) && Names(list[i], id)
    ensures Totals(scores[id := Scored(scores, id) + Share(i)], done, list[..i + 1])
  {
    var next := scores[id := Scored(scores, id) + Share(i)];
    assert list[..i + 1][..i] == list[..i];
    forall x
      ensures Scored(next, x) == Score(done, x) + ListScore(list[..i + 1], x)
    {
      assert Scored(scores, x) == Score(done, x) + ListScore(list[..i], x);
    }
  }

  lemma TotalsSkip(scores: map<string, real>, done: seq<Ranking>, list: Ranking, i: nat)
    requires i < |list| && Totals(scores, done, list[..i]) && list[i].None?
    ensures Totals(scores, done, list[..i + 1])
  {
    assert list[..i + 1][..i] == list[..i];
    forall x
      ensures Scored(scores, x) == Score(done, x) + ListScore(list[..i + 1], x)
    {
      assert Scored(scores, x) == Score(done, x) + ListScore(list[..i], x);
    }
  }

  lemma MentionsStep(list: Ranking, i: nat, id: string)
    requires i < |list|
    ensures Mentions(list[..i + 1], id) <==> Mentions(list[..i], id) || Names(list[i], id)
  {
    var shorter, longer := list[..i], list[..i + 1];
    if Mentions(shorter, id) {
      var k :| 0 <= k < i && Names(shorter[k], id);
      assert Names(longer[k], id);
    }
    if Names(list[i], id) {
      assert Names(longer[i], id);
    }
    if Mentions(longer, id) && !Names(list[i], id) {
      var k :| 0 <= k < |longer| && Names(longer[k], id);
      assert Names(shorter[k], id);
    }
  }

  lemma MentionedStep(lists: seq<Ranking>, k: nat, id: string)
    requires k < |lists|
    ensures Mentioned(lists[..k + 1], id) <==> Mentioned(lists[..k], id) || Mentions(lists[k], id)
  {
    var shorter, longer := lists[..k], lists[..k + 1];
    if Mentioned(shorter, id) {
      var i :| 0 <= i < k && Mentions(shorter[i], id);
      assert Mentions(longer[i], id);
    }
    if Mentions(lists[k], id) {
      assert Mentions(longer[k], id);
    }
    if Mentioned(longer, id) && !Mentions(lists[k], id) {
      var i :| 0 <= i < |longer| && Mentions(longer[i], id);
      assert Mentions(shorter[i], id);
    }
  }

  lemma NextList(scores: map<string, real>, order: seq<string>, documents: map<string, Document>,
                 lists: seq<Ranking>, k: nat)
    requires k < |lists|
    requires Totals(scores, lists[..k], lists[k]) && Met(order, documents, lists[..k], lists[k])
    ensures Totals(scores, lists[..k + 1], []) && Met(order, documents, lists[..k + 1], [])
  {
    assert lists[..k + 1][..k] == lists[..k];
    forall id
      ensures Scored(scores, id) == Score(lists[..k + 1], id) + ListScore([], id)
      ensures id in documents <==> Mentioned(lists[..k + 1], id) || Mentions([], id)
    {
      assert Scored(scores, id) == Score(lists[..k], id) + ListScore(lists[k], id);
      MentionedStep(lists, k, id);
    }
  }

  lemma MetStep(order: seq<string>, documents: map<string, Document>, done: seq<Ranking>,
                list: Ranking, i: nat, document: Document)
    requires i < |list| && list[i] == Some(document) && Met(order, documents, done, list[..i])
    ensures Met(if document.id in documents then order else order + [document.id],
                documents[document.id := document], done, list[..i + 1])
  {
    forall id
      ensures Mentions(list[..i + 1], id) <==> Mentions(list[..i], id) || id == document.id
    {
      MentionsStep(list, i, id);
    }
  }

  lemma MetSkip(order: seq<string>, documents: map<string, Document>, done: seq<Ranking>, list: Ranking, i: nat)
    requires i < |list| && list[i].None? && Met(order, documents, done, list[..i])
    ensures Met(order, documents, done, list[..i + 1])
  {
    forall id
      ensures Mentions(list[..i + 1], id) <==> Mentions(list[..i], id)
    {
      MentionsStep(list, i, id);
    }
  }

  lemma SortedIsFused(order: seq<string>, scores: map<string, real>, documents: map<string, Document>,
                      lists: seq<Ranking>)
    requires Totals(scores, lists, []) && Met(order, documents, lists, [])
    ensures Fused(SortBy(ByScore(scores), order), lists)
  {
    var less := ByScore(scores);
    var ids := SortBy(less, order);
    ByScoreIsTotal(scores);
    TotalIsWeak(less);
    SortBySorted(less, order);
    SortByDistinct(less, order);
    forall id
      ensures id in ids <==> Mentioned(lists, id)
      ensures Scored(scores, id) == Score(lists, id)
    {
      SortByMembers(less, order, id);
      assert Scored(scores, id) == Score(lists, id) + ListScore([], id);
    }
    forall i, j | 0 <= i < j < |ids|
      ensures Better(Score(lists, ids[i]), ids[i], Score(lists, ids[j]), ids[j])
    {
      assert !less(ids[j], ids[i]);
      assert less(ids[i], ids[j]);
    }
  }

  method AddList(scores0: map<string, real>, documents0: map<string, Document>, order0: seq<string>,
                 ghost done: seq<Ranking>, list: Ranking)
    returns (scores: map<string, real>, documents: map<string, Document>, order: seq<string>)
    requires Totals(scores0, done, []) && Met(order0, documents0, done, []) && Kept(documents0, done, [])
    ensures Totals(scores, done, list) && Met(order, documents, done, list) && Kept(documents, done, list)
  {
    scores, documents, order := scores0, documents0, order0;
    assert list[..0] == [];
    for i := 0 to |list|
      invariant Totals(scores, done, list[..i]) && Met(order, documents, done, list[..i])
      invariant Kept(documents, done, list[..i])
    {
      KeptStep(documents, done, list, i);
      if list[i].Some? {
        var document := list[i].value;
        MetStep(order, documents, done, list, i, document);
        TotalsStep(scores, done, list, i, document.id);
        if document.id !in documents {
          order := order + [document.id];
        }
        documents := documents[document.id := document];
        scores := scores[document.id := Scored(scores, document.id) + Share(i)];
      } else {
        MetSkip(order, documents, done, list, i);
        TotalsSkip(scores, done, list, i);
      }
    }
    assert list[..|list|] == list;
  }

  lemma NothingYet()
    ensures Totals(map[], [], []) && Met([], map[], [], []) && Kept(map[], [], [])
  {
  }

  method RRF(lists: seq<Ranking>) returns (out: seq<Document>)
    ensures Fused(Ids(out), lists)
    ensures forall j :: 0 <= j < |out| ==> LastDocument(lists, out[j].id) == Some(out[j])
  {
    hide Fused, Score, LastDocument, Mentioned;
    var scores: map<string, real> := map[];
    var documents: map<string, Document> := map[];
    var order: seq<string> := [];
    NothingYet();
    for k := 0 to |lists|
      invariant Totals(scores, lists[..k], [])
                && Met(order, documents, lists[..k], []) && Kept(documents, lists[..k], [])
    {
      scores, documents, order := AddList(scores, documents, order, lists[..k], lists[k]);
      KeptNext(documents, lists, k);
      NextList(scores, order, documents, lists, k);
    }
    assert lists[..|lists|] == lists;
    assert forall id :: id in documents ==> Found(documents, id) == LastDocument(lists, id);
    SortedIsFused(order, scores, documents, lists);
    var ids := SortBy(ByScore(scores), order);
    out := Looked(ids, documents, order, ByScore(scores));
    assert forall j :: 0 <= j < |out| ==> Found(documents, out[j].id) == Some(out[j]);
  }

  method Looked(ids: seq<string>, documents: map<string, Document>, order: seq<string>, less: (string, string) -> bool)
    returns (out: seq<Document>)
    requires ids == SortBy(less, order)
    requires forall id :: id in order ==> id in documents && documents[id].id == id
    ensures Ids(out) == ids
    ensures forall j :: 0 <= j < |out| ==> Found(documents, out[j].id) == Some(out[j])
  {
    out := [];
    for j := 0 to |ids|
      invariant Ids(out) == ids[..j]
      invariant forall j :: 0 <= j < |out| ==> Found(documents, out[j].id) == Some(out[j])
    {
      SortByMembers(less, order, ids[j]);
      out := out + [documents[ids[j]]];
    }
    assert ids[..|ids|] == ids;
  }

  /* What fusion promises. */

  // The lists determine the fusion.
  lemma OneFusion(a: seq<string>, b: seq<string>, lists: seq<Ranking>, others: seq<Ranking>)
    requires Fused(a, lists) && Fused(b, others)
    requires forall id :: (Mentioned(lists, id) <==> Mentioned(others, id)) && Score(lists, id) == Score(others, id)
    ensures a == b
  {
    DistinctSameSet(a, b);
    var scores := map id | id in a :: Score(lists, id);
    var less := ByScore(scores);
    ByScoreIsTotal(scores);
    forall i, j | 0 <= i < j < |a|
      ensures !less(a[j], a[i])
    {
      assert less(a[i], a[j]);
    }
    forall i, j | 0 <= i < j < |b|
      ensures !less(b[j], b[i])
    {
      assert b[i] in a && b[j] in a;
      assert less(b[i], b[j]);
    }
    SortedUnique(less, a, b);
  }

  lemma {:induction false} ScoreWithout(lists: seq<Ranking>, k: nat, id: string)
    requires k < |lists|
    ensures Score(lists, id) == Score(lists[..k] + lists[k + 1..], id) + ListScore(lists[k], id)
  {
    var n := |lists| - 1;
    if k == n {
      assert lists[..k] + lists[k + 1..] == lists[..n];
    } else {
      ScoreWithout(lists[..n], k, id);
      var rest := lists[..k] + lists[k + 1..];
      assert rest[..|rest| - 1] == lists[..n][..k] + lists[..n][k + 1..];
      assert rest[|rest| - 1] == lists[n];
    }
  }

  lemma RemoveBoth(lists: seq<Ranking>, others: seq<Ranking>, n: nat, k: nat)
    requires multiset(lists) == multiset(others)
    requires |lists| == n + 1 && k < |others| && others[k] == lists[n]
    ensures multiset(lists[..n]) == multiset(others[..k] + others[k + 1..])
  {
    assert lists == lists[..n] + [lists[n]];
    assert others == others[..k] + [others[k]] + others[k + 1..];
    assert multiset(lists[..n]) == multiset(lists) - multiset{lists[n]};
    assert multiset(others[..k] + others[k + 1..]) == multiset(others) - multiset{others[k]};
  }

  lemma {:induction false} ScoreIgnoresOrder(lists: seq<Ranking>, others: seq<Ranking>, id: string)
    requires multiset(lists) == multiset(others)
    ensures Score(lists, id) == Score(others, id)
  {
    assert |multiset(lists)| == |lists| && |multiset(others)| == |others|;
    if lists != [] {
      var n := |lists| - 1;
      assert lists[n] in multiset(others);
      var k :| 0 <= k < |others| && others[k] == lists[n];
      RemoveBoth(lists, others, n, k);
      ScoreWithout(others, k, id);
      ScoreIgnoresOrder(lists[..n], others[..k] + others[k + 1..], id);
    }
  }

  // The order of the list arguments does not matter.
  lemma ListOrderIrrelevant(a: seq<string>, b: seq<string>, lists: seq<Ranking>, others: seq<Ranking>)
    requires Fused(a, lists) && Fused(b, others) && multiset(lists) == multiset(others)
    ensures a == b
  {
    forall id
      ensures (Mentioned(lists, id) <==> Mentioned(others, id)) && Score(lists, id) == Score(others, id)
    {
      ScoreIgnoresOrder(lists, others, id);
      if Mentioned(lists, id) {
        SameMentions(lists, others, id);
      }
      if Mentioned(others, id) {
        SameMentions(others, lists, id);
      }
    }
    OneFusion(a, b, lists, others);
  }

  lemma SameMentions(lists: seq<Ranking>, others: seq<Ranking>, id: string)
    requires multiset(lists) == multiset(others) && Mentioned(lists, id)
    ensures Mentioned(others, id)
  {
    var k :| 0 <= k < |lists| && Mentions(lists[k], id);
    assert lists[k] in multiset(others);
    var j :| 0 <= j < |others| && others[j] == lists[k];
  }

  /* Ranks and scores. */

  // No id appears twice in the list.
  ghost predicate Unrepeated(list: Ranking) {
    forall i, j :: 0 <= i < j < |list| && list[i].Some? && list[j].Some? ==> list[i].value.id != list[j].value.id
  }

  lemma {:induction false} UnnamedScore(list: Ranking, id: string)
    requires !Mentions(list, id)
    ensures ListScore(list, id) == 0.0
  {
    if list != [] {
      var n := |list| - 1;
      assert !Names(list[n], id);
      assert !Mentions(list[..n], id) by {
        MentionsStep(list, n, id);
        assert list[..n + 1] == list;
      }
      UnnamedScore(list[..n], id);
    }
  }

  // In a list without repetition an item scores the share of its one position.
  lemma {:induction false} RankScore(list: Ranking, i: nat)
    requires Unrepeated(list) && i < |list| && list[i].Some?
    ensures ListScore(list, list[i].value.id) == Share(i)
  {
    var n, id := |list| - 1, list[i].value.id;
    if i == n {
      assert forall k :: 0 <= k < n ==> !Names(list[k], id);
      UnnamedScore(list[..n], id);
    } else {
      RankScore(list[..n], i);
    }
  }

  lemma ShareDecreases(i: nat, j: nat)
    requires i < j
    ensures Share(i) > Share(j) > 0.0
  {
    var x, y := (K + i + 1) as real, (K + j + 1) as real;
    assert 0.0 < x < y;
    assert 1.0 / x - 1.0 / y == (y - x) / (x * y);
  }

  // In this list a is ranked at least as well as b: wherever b is named, a is
  // named, and not later.
  ghost predicate NotWorse(list: Ranking, a: string, b: string) {
    forall j :: 0 <= j < |list| && Names(list[j], b) ==> exists i :: 0 <= i <= j && Names(list[i], a)
  }

  lemma NotWorseScores(list: Ranking, a: string, b: string)
    requires Unrepeated(list) && NotWorse(list, a, b) && a != b
    ensures ListScore(list, a) >= ListScore(list, b)
    ensures Mentions(list, a) ==> ListScore(list, a) > ListScore(list, b)
  {
    if Mentions(list, a) {
      var i :| 0 <= i < |list| && Names(list[i], a);
      RankScore(list, i);
      ShareDecreases(i, i + 1);
      if Mentions(list, b) {
        var j :| 0 <= j < |list| && Names(list[j], b);
        RankScore(list, j);
        var k :| 0 <= k <= j && Names(list[k], a);
        assert k == i;
        ShareDecreases(i, j);
      } else {
        UnnamedScore(list, b);
      }
    } else {
      assert !Mentions(list, b);
      UnnamedScore(list, b);
    }
  }

  lemma {:induction false} ScoresAddUp(lists: seq<Ranking>, a: string, b: string)
    requires forall k :: 0 <= k < |lists| ==> Unrepeated(lists[k]) && NotWorse(lists[k], a, b)
    requires a != b
    ensures Score(lists, a) >= Score(lists, b)
    ensures Mentioned(lists, a) ==> Score(lists, a) > Score(lists, b)
  {
    if lists != [] {
      var n := |lists| - 1;
      ScoresAddUp(lists[..n], a, b);
      NotWorseScores(lists[n], a, b);
      MentionedStep(lists, n, a);
      assert lists[..n + 1] == lists;
    }
  }

  ghost predicate Precedes(ids: seq<string>, a: string, b: string) {
    exists i, j :: 0 <= i < j < |ids| && ids[i] == a && ids[j] == b
  }

  lemma BetterPrecedes(ids: seq<string>, lists: seq<Ranking>, a: string, b: string)
    requires Fused(ids, lists) && Mentioned(lists, a) && Mentioned(lists, b)
    requires Score(lists, a) > Score(lists, b)
    ensures Precedes(ids, a, b)
  {
    var i :| 0 <= i < |ids| && ids[i] == a;
    var j :| 0 <= j < |ids| && ids[j] == b;
    assert i < j;
  }

  // An item no list ranks below another precedes it, so one that no list ranks
  // below any other comes first.
  lemma Dominance(ids: seq<string>, lists: seq<Ranking>, a: string)
    requires Fused(ids, lists) && Mentioned(lists, a)
    requires forall k :: 0 <= k < |lists| ==> Unrepeated(lists[k])
    ensures forall b :: Mentioned(lists, b) && b != a && (forall k :: 0 <= k < |lists| ==> NotWorse(lists[k], a, b)) ==>
                          Precedes(ids, a, b)
    ensures (forall b, k :: Mentioned(lists, b) && b != a && 0 <= k < |lists| ==> NotWorse(lists[k], a, b)) ==>
              ids[0] == a
  {
    forall b | Mentioned(lists, b) && b != a && (forall k :: 0 <= k < |lists| ==> NotWorse(lists[k], a, b))
      ensures Precedes(ids, a, b)
    {
      ScoresAddUp(lists, a, b);
      BetterPrecedes(ids, lists, a, b);
    }
    assert a in ids;
    if (forall b, k :: Mentioned(lists, b) && b != a && 0 <= k < |lists| ==> NotWorse(lists[k], a, b)) && ids[0] != a {
      assert ids[0] in ids;
      ScoresAddUp(lists, a, ids[0]);
      BetterPrecedes(ids, lists, a, ids[0]);
      assert false;
    }
  }

  // The ids a list names, in its order.
  function Present(list: Ranking): seq<string> {
    if list == [] then []
    else
      var n := |list| - 1;
      Present(list[..n]) + if list[n].Some? then [list[n].value.id] else []
  }

  lemma {:induction false} PresentSorted(list: Ranking, whole: Ranking)
    requires Unrepeated(whole) && list <= whole
    ensures Distinct(Present(list))
    ensures forall id :: id in Present(list) <==> Mentions(list, id)
    ensures forall x, y :: 0 <= x < y < |Present(list)| ==>
              ListScore(whole, Present(list)[x]) > ListScore(whole, Present(list)[y])
  {
    if list != [] {
      var n := |list| - 1;
      PresentSorted(list[..n], whole);
      assert list[..n + 1] == list && list[n] == whole[n];
      forall id
        ensures Mentions(list, id) <==> Mentions(list[..n], id) || Names(list[n], id)
      {
        MentionsStep(list, n, id);
      }
      if list[n].Some? {
        RankScore(whole, n);
        forall x | 0 <= x < |Present(list[..n])|
          ensures ListScore(whole, Present(list[..n])[x]) > ListScore(whole, whole[n].value.id)
        {
          var id := Present(list[..n])[x];
          assert Mentions(list[..n], id);
          var i :| 0 <= i < n && Names(list[..n][i], id);
          assert whole[i] == list[i];
          RankScore(whole, i);
          ShareDecreases(i, n);
        }
      }
    }
  }

  // One list passes through unchanged, its missing entries dropped.
  lemma SingleList(ids: seq<string>, list: Ranking)
    requires Fused(ids, [list]) && Unrepeated(list)
    ensures ids == Present(list)
  {
    PresentSorted(list, list);
    var lists := [list];
    forall id
      ensures Mentioned(lists, id) <==> Mentions(list, id)
      ensures Score(lists, id) == ListScore(list, id)
    {
      assert Mentions(lists[0], id) <==> Mentions(list, id);
      assert lists[..0] == [];
    }
    OneFusion(ids, Present(list), lists, lists);
  }

  /* Two lists. */

  const WINDOW := 61

  predicate WithinTop(list: Ranking, id: string) {
    exists i :: 0 <= i < |list| && i < WINDOW && Names(list[i], id)
  }

  lemma TwoScores(one: Ranking, two: Ranking, id: string)
    ensures Score([one, two], id) == ListScore(one, id) + ListScore(two, id)
  {
    var lists := [one, two];
    var first := lists[..1];
    assert first == [one] && first[..0] == [];
    assert Score(first, id) == ListScore(one, id);
  }

  lemma ScoreBounds(list: Ranking, id: string)
    requires Unrepeated(list)
    ensures ListScore(list, id) <= 1.0 / 61.0
    ensures WithinTop(list, id) ==> ListScore(list, id) >= 1.0 / 121.0
    ensures !Mentions(list, id) ==> ListScore(list, id) == 0.0
  {
    if Mentions(list, id) {
      var i :| 0 <= i < |list| && Names(list[i], id);
      RankScore(list, i);
      if i > 0 {
        ShareDecreases(0, i);
      }
      if WithinTop(list, id) && i < WINDOW - 1 {
        ShareDecreases(i, WINDOW - 1);
      }
    } else {
      UnnamedScore(list, id);
    }
  }

  // Being in the top 61 of both lists beats any place in only one of them.
  lemma BothBeatOne(ids: seq<string>, one: Ranking, two: Ranking, a: string, b: string)
    requires Unrepeated(one) && Unrepeated(two) && Fused(ids, [one, two])
    requires WithinTop(one, a) && WithinTop(two, a)
    requires Mentions(one, b) != Mentions(two, b)
    ensures Precedes(ids, a, b)
  {
    TwoScores(one, two, a);
    TwoScores(one, two, b);
    ScoreBounds(one, a);
    ScoreBounds(two, a);
    ScoreBounds(one, b);
    ScoreBounds(two, b);
    assert Mentions([one, two][0], a);
    assert Mentions([one, two][0], b) || Mentions([one, two][1], b);
    BetterPrecedes(ids, [one, two], a, b);
  }

  // 61 is the best bound: the 62nd of both lists ties with the first of one.
  lemma TheBoundIsTight(one: Ranking, two: Ranking, a: string, b: string)
    requires Unrepeated(one) && Unrepeated(two)
    requires |one| > WINDOW && Names(one[WINDOW], a) && |two| > WINDOW && Names(two[WINDOW], a)
    requires Names(one[0], b) && !Mentions(two, b)
    ensures Score([one, two], a) == Score([one, two], b)
  {
    TwoScores(one, two, a);
    TwoScores(one, two, b);
    RankScore(one, WINDOW);
    RankScore(two, WINDOW);
    RankScore(one, 0);
    UnnamedScore(two, b);
  }
}
