/** `adaptive_retrieve`: rounds of search merged into one best hit per item.

    Search, hybrid retrieval, query expansion and the reranker's scores are oracles; a search
    oracle is told how many rounds came before, so that asking twice may answer differently. */
module ResultMerge {
  import opened Common

  datatype Hit = Hit(itemId: string, score: real, content: string)

  datatype Round = Round(number: int, query: string, strategy: string, hits: nat, newHits: nat)

  // ------------------------------------------------------------------------------ merge

  /** The `seen` dictionary and its insertion order. */
  datatype Seen = Seen(order: seq<string>, best: map<string, Hit>)

  function MergeOne(s: Seen, h: Hit): Seen {
    if h.itemId !in s.best then Seen(s.order + [h.itemId], s.best[h.itemId := h])
    else if h.score > s.best[h.itemId].score then s.(best := s.best[h.itemId := h])
    else s
  }

  function Merge(s: Seen, hits: seq<Hit>): Seen
    decreases |hits|
  {
    if hits == [] then s else MergeOne(Merge(s, hits[..|hits| - 1]), hits[|hits| - 1])
  }

  const NOTHING: Seen := Seen([], map[])

  lemma {:induction false} MergeConcat(s: Seen, a: seq<Hit>, b: seq<Hit>)
    ensures Merge(s, a + b) == Merge(Merge(s, a), b)
    decreases |b|
  {
    if b == [] {
      assert a + b == a;
    } else {
      MergeConcat(s, a, b[..|b| - 1]);
      assert (a + b)[..|a| + |b| - 1] == a + b[..|b| - 1];
    }
  }

  predicate AnyWith(hits: seq<Hit>, id: string) {
    exists i :: 0 <= i < |hits| && hits[i].itemId == id
  }

  /** `h` has the highest score any hit gave its item, and was the first to reach it. */
  predicate FirstBest(hits: seq<Hit>, h: Hit) {
    exists i :: 0 <= i < |hits| && hits[i] == h && Beats(hits, i)
  }

  predicate Beats(hits: seq<Hit>, i: nat)
    requires i < |hits|
  {
    forall j :: 0 <= j < |hits| && hits[j].itemId == hits[i].itemId ==>
      hits[j].score <= hits[i].score && (j < i ==> hits[j].score < hits[i].score)
  }

  /** The dictionary holds, for exactly the items hit, the first best hit. */
  ghost predicate IsBest(hits: seq<Hit>, s: Seen) {
    && (forall id :: id in s.best <==> AnyWith(hits, id))
    && (forall id :: id in s.best ==> s.best[id].itemId == id && FirstBest(hits, s.best[id]))
  }

  predicate Listed(s: Seen) {
    && (forall i, j :: 0 <= i < j < |s.order| ==> s.order[i] != s.order[j])
    && (forall i :: 0 <= i < |s.order| ==> s.order[i] in s.best)
    && forall id :: id in s.best ==> id in s.order
  }

  lemma AnyWithSnoc(hits: seq<Hit>, h: Hit, id: string)
    ensures AnyWith(hits + [h], id) <==> AnyWith(hits, id) || h.itemId == id
  {
    var all := hits + [h];
    assert all[|hits|] == h;
    if AnyWith(hits, id) {
      var i :| 0 <= i < |hits| && hits[i].itemId == id;
      assert all[i].itemId == id;
    }
  }

  lemma FirstBestSnoc(hits: seq<Hit>, h: Hit, g: Hit)
    requires FirstBest(hits, g) && (h.itemId == g.itemId ==> h.score <= g.score)
    ensures FirstBest(hits + [h], g)
  {
    var i :| 0 <= i < |hits| && hits[i] == g && Beats(hits, i);
    assert (hits + [h])[i] == g && Beats(hits + [h], i);
  }

  lemma NewBest(hits: seq<Hit>, h: Hit)
    requires forall j :: 0 <= j < |hits| && hits[j].itemId == h.itemId ==> hits[j].score < h.score
    ensures FirstBest(hits + [h], h)
  {
    assert (hits + [h])[|hits|] == h && Beats(hits + [h], |hits|);
  }

  lemma MergeOneIsBest(hits: seq<Hit>, s: Seen, h: Hit)
    requires IsBest(hits, s)
    ensures IsBest(hits + [h], MergeOne(s, h))
  {
    var t := MergeOne(s, h);
    forall id ensures id in t.best <==> AnyWith(hits + [h], id) { AnyWithSnoc(hits, h, id); }
    forall id | id in t.best ensures t.best[id].itemId == id && FirstBest(hits + [h], t.best[id]) {
      if id == h.itemId && t.best[id] == h && (id !in s.best || h.score > s.best[id].score) {
        forall j | 0 <= j < |hits| && hits[j].itemId == h.itemId ensures hits[j].score < h.score {
          assert AnyWith(hits, id);
          var i :| 0 <= i < |hits| && hits[i] == s.best[id] && Beats(hits, i);
        }
        NewBest(hits, h);
      } else {
        FirstBestSnoc(hits, h, s.best[id]);
      }
    }
  }

  lemma MergeOneListed(s: Seen, h: Hit)
    requires Listed(s)
    ensures Listed(MergeOne(s, h))
  {
    var t := MergeOne(s, h);
    assert forall i :: 0 <= i < |s.order| ==> t.order[i] == s.order[i];
    assert h.itemId !in s.best ==> t.order[|s.order|] == h.itemId;
  }

  /** Merging keeps the first best hit of every item. */
  lemma {:induction false} MergeIsBest(hits: seq<Hit>)
    ensures IsBest(hits, Merge(NOTHING, hits)) && Listed(Merge(NOTHING, hits))
    decreases |hits|
  {
    if hits != [] {
      var init, h := hits[..|hits| - 1], hits[|hits| - 1];
      MergeIsBest(init);
      assert hits == init + [h];
      MergeOneIsBest(init, Merge(NOTHING, init), h);
      MergeOneListed(Merge(NOTHING, init), h);
    }
  }

  /** Item `a` turned up before `b` did. */
  predicate FoundSooner(hits: seq<Hit>, a: string, b: string) {
    exists p :: 0 <= p < |hits| && hits[p].itemId == a && forall q :: 0 <= q <= p ==> hits[q].itemId != b
  }

  lemma SoonerSnoc(hits: seq<Hit>, h: Hit, a: string, b: string)
    requires FoundSooner(hits, a, b) || (AnyWith(hits, a) && !AnyWith(hits, b))
    ensures FoundSooner(hits + [h], a, b)
  {
    var all := hits + [h];
    var p :| 0 <= p < |hits| && hits[p].itemId == a && forall q :: 0 <= q <= p ==> hits[q].itemId != b;
    assert all[p].itemId == a && forall q :: 0 <= q <= p ==> all[q].itemId == hits[q].itemId;
  }

  /** The dictionary's insertion order is the order in which the items were first found. */
  lemma {:induction false} OrderIsFirstFound(hits: seq<Hit>, i: nat, j: nat)
    requires i < j < |Merge(NOTHING, hits).order|
    ensures FoundSooner(hits, Merge(NOTHING, hits).order[i], Merge(NOTHING, hits).order[j])
    decreases |hits|
  {
    var init, h := hits[..|hits| - 1], hits[|hits| - 1];
    var s, t := Merge(NOTHING, init), Merge(NOTHING, hits);
    MergeIsBest(init);
    assert hits == init + [h];
    if j < |s.order| { OrderIsFirstFound(init, i, j); }
    SoonerSnoc(init, h, t.order[i], t.order[j]);
  }

  /** The scores do not depend on the order of rounds, nor of hits within them. */
  lemma ScoresIgnoreOrder(a: seq<Hit>, b: seq<Hit>)
    requires multiset(a) == multiset(b)
    ensures var s, t := Merge(NOTHING, a).best, Merge(NOTHING, b).best;
            s.Keys == t.Keys && forall id :: id in s ==> s[id].score == t[id].score
  {
    MergeIsBest(a);
    MergeIsBest(b);
    ScoresBelow(a, b);
    ScoresBelow(b, a);
  }

  lemma ScoresBelow(a: seq<Hit>, b: seq<Hit>)
    requires multiset(a) == multiset(b)
    requires IsBest(a, Merge(NOTHING, a)) && IsBest(b, Merge(NOTHING, b))
    ensures var s, t := Merge(NOTHING, a).best, Merge(NOTHING, b).best;
            forall id :: id in s ==> id in t && s[id].score <= t[id].score
  {
    var s, t := Merge(NOTHING, a).best, Merge(NOTHING, b).best;
    forall id | id in s ensures id in t && s[id].score <= t[id].score {
      var h := s[id];
      assert h in multiset(a);
      assert h in b;
      var j :| 0 <= j < |b| && b[j] == h;
      assert AnyWith(b, id);
      var k :| 0 <= k < |b| && b[k] == t[id] && Beats(b, k);
    }
  }

  // ---------------------------------------------------------------------------- ranking

  function HitScore(h: Hit): real { h.score }

  function InsertDesc<T>(x: T, s: seq<T>, score: T -> real): seq<T> {
    if s == [] || score(s[0]) <= score(x) then [x] + s else [s[0]] + InsertDesc(x, s[1..], score)
  }

  /** `sorted(..., key=score, reverse=True)`, which keeps the order of equals. */
  function SortDesc<T>(s: seq<T>, score: T -> real): seq<T> {
    if s == [] then [] else InsertDesc(s[0], SortDesc(s[1..], score), score)
  }

  predicate Descending<T>(s: seq<T>, score: T -> real) {
    forall i, j :: 0 <= i < j < |s| ==> score(s[i]) >= score(s[j])
  }

  function Only<T>(x: T, score: T -> real, v: real): seq<T> { if score(x) == v then [x] else [] }

  function WithScore<T>(s: seq<T>, score: T -> real, v: real): seq<T> {
    if s == [] then [] else Only(s[0], score, v) + WithScore(s[1..], score, v)
  }

  lemma {:induction false} InsertDescPermutes<T>(x: T, s: seq<T>, score: T -> real)
    ensures multiset(InsertDesc(x, s, score)) == multiset(s) + multiset{x}
    decreases |s|
  {
    if s != [] && score(s[0]) > score(x) {
      InsertDescPermutes(x, s[1..], score);
      assert s == [s[0]] + s[1..];
    }
  }

  lemma {:induction false} InsertDescSorts<T>(x: T, s: seq<T>, score: T -> real)
    requires Descending(s, score)
    ensures Descending(InsertDesc(x, s, score), score)
    decreases |s|
  {
    if s != [] && score(s[0]) > score(x) {
      InsertDescSorts(x, s[1..], score);
      InsertDescPermutes(x, s[1..], score);
      var t := InsertDesc(x, s[1..], score);
      forall k | 0 <= k < |t| ensures score(s[0]) >= score(t[k]) {
        assert t[k] in multiset(t);
        assert t[k] == x || t[k] in s[1..];
      }
    }
  }

  lemma {:induction false} WithScoreCons<T>(x: T, s: seq<T>, score: T -> real, v: real)
    ensures WithScore([x] + s, score, v) == Only(x, score, v) + WithScore(s, score, v)
  {
    assert ([x] + s)[1..] == s;
  }

  lemma {:induction false} OnlySwaps<T>(x: T, y: T, s: seq<T>, score: T -> real, v: real)
    requires score(x) != score(y)
    ensures Only(x, score, v) + (Only(y, score, v) + s) == Only(y, score, v) + (Only(x, score, v) + s)
  {
    var a, b := Only(x, score, v), Only(y, score, v);
    assert [] + s == s && [] + (a + s) == a + s && [] + (b + s) == b + s;
  }

  lemma {:induction false} InsertDescIsStable<T>(x: T, s: seq<T>, score: T -> real, v: real)
    ensures WithScore(InsertDesc(x, s, score), score, v) == Only(x, score, v) + WithScore(s, score, v)
    decreases |s|
  {
    if s == [] || score(s[0]) <= score(x) {
      WithScoreCons(x, s, score, v);
    } else {
      InsertDescIsStable(x, s[1..], score, v);
      WithScoreCons(s[0], InsertDesc(x, s[1..], score), score, v);
      OnlySwaps(s[0], x, WithScore(s[1..], score, v), score, v);
    }
  }

  /** Sorting permutes, sorts descending, and leaves equal scores in their original order. */
  lemma {:induction false} SortDescSorts<T>(s: seq<T>, score: T -> real)
    ensures Descending(SortDesc(s, score), score) && multiset(SortDesc(s, score)) == multiset(s)
    ensures forall v :: WithScore(SortDesc(s, score), score, v) == WithScore(s, score, v)
    decreases |s|
  {
    if s != [] {
      SortDescSorts(s[1..], score);
      InsertDescSorts(s[0], SortDesc(s[1..], score), score);
      InsertDescPermutes(s[0], SortDesc(s[1..], score), score);
      forall v ensures WithScore(SortDesc(s, score), score, v) == WithScore(s, score, v) {
        InsertDescIsStable(s[0], SortDesc(s[1..], score), score, v);
      }
      assert s == [s[0]] + s[1..];
    }
  }

  lemma {:induction false} IntoScore<T>(s: seq<T>, score: T -> real, i: nat) returns (a: nat)
    requires i < |s|
    ensures a < |WithScore(s, score, score(s[i]))| && WithScore(s, score, score(s[i]))[a] == s[i]
    decreases |s|
  {
    if i == 0 { a := 0; } else { var b := IntoScore(s[1..], score, i - 1); a := |Only(s[0], score, score(s[i]))| + b; }
  }

  lemma {:induction false} IntoScores<T>(s: seq<T>, score: T -> real, i: nat, j: nat) returns (a: nat, b: nat)
    requires i < j < |s| && score(s[i]) == score(s[j])
    ensures a < b < |WithScore(s, score, score(s[i]))|
    ensures WithScore(s, score, score(s[i]))[a] == s[i] && WithScore(s, score, score(s[i]))[b] == s[j]
    decreases |s|
  {
    var k := |Only(s[0], score, score(s[i]))|;
    if i == 0 {
      var c := IntoScore(s[1..], score, j - 1);
      a, b := 0, k + c;
    } else {
      var c, d := IntoScores(s[1..], score, i - 1, j - 1);
      a, b := k + c, k + d;
    }
  }

  lemma {:induction false} OutOfScore<T>(s: seq<T>, score: T -> real, v: real, a: nat) returns (p: nat)
    requires a < |WithScore(s, score, v)|
    ensures p < |s| && s[p] == WithScore(s, score, v)[a]
    decreases |s|
  {
    var k := |Only(s[0], score, v)|;
    if a < k { p := 0; } else { var q := OutOfScore(s[1..], score, v, a - k); p := q + 1; }
  }

  lemma {:induction false} OutOfScores<T>(s: seq<T>, score: T -> real, v: real, a: nat, b: nat) returns (p: nat, q: nat)
    requires a < b < |WithScore(s, score, v)|
    ensures p < q < |s| && s[p] == WithScore(s, score, v)[a] && s[q] == WithScore(s, score, v)[b]
    decreases |s|
  {
    var k := |Only(s[0], score, v)|;
    if a < k {
      var r := OutOfScore(s[1..], score, v, b - k);
      p, q := 0, r + 1;
    } else {
      var c, d := OutOfScores(s[1..], score, v, a - k, b - k);
      p, q := c + 1, d + 1;
    }
  }

  /** Elements of one score come out of a sort in the order they went in. */
  lemma {:induction false} EqualsKeepOrder<T>(s: seq<T>, score: T -> real, i: nat, j: nat) returns (p: nat, q: nat)
    requires i < j < |SortDesc(s, score)| && score(SortDesc(s, score)[i]) == score(SortDesc(s, score)[j])
    ensures p < q < |s| && s[p] == SortDesc(s, score)[i] && s[q] == SortDesc(s, score)[j]
  {
    var sorted := SortDesc(s, score);
    SortDescSorts(s, score);
    var a, b := IntoScores(sorted, score, i, j);
    p, q := OutOfScores(s, score, score(sorted[i]), a, b);
  }

  function Values(s: Seen): seq<Hit>
    requires Listed(s)
  {
    seq(|s.order|, i requires 0 <= i < |s.order| => s.best[s.order[i]])
  }

  // --------------------------------------------------------------------------- accounting

  /** One round as it was asked and answered. */
  datatype Asked = Asked(number: int, query: string, strategy: string, hits: seq<Hit>)

  function Flatten(trace: seq<Asked>): seq<Hit>
    decreases |trace|
  {
    if trace == [] then [] else Flatten(trace[..|trace| - 1]) + trace[|trace| - 1].hits
  }

  function SeenAfter(trace: seq<Asked>): Seen { Merge(NOTHING, Flatten(trace)) }

  /** What the rounds' records say: `newHits` counts the items the round was first to find. */
  function RoundsOf(trace: seq<Asked>): seq<Round>
    decreases |trace|
  {
    if trace == [] then []
    else
      var init, a := trace[..|trace| - 1], trace[|trace| - 1];
      MergeOnlyAdds(SeenAfter(init), a.hits);
      MergeConcat(NOTHING, Flatten(init), a.hits);
      RoundsOf(init) + [Round(a.number, a.query, a.strategy, |a.hits|,
                              |SeenAfter(trace).order| - |SeenAfter(init).order|)]
  }

  lemma {:induction false} MergeOnlyAdds(s: Seen, hits: seq<Hit>)
    ensures |s.order| <= |Merge(s, hits).order|
    decreases |hits|
  {
    if hits != [] { MergeOnlyAdds(s, hits[..|hits| - 1]); }
  }

  function SumHits(rounds: seq<Round>): nat
    decreases |rounds|
  {
    if rounds == [] then 0 else SumHits(rounds[..|rounds| - 1]) + rounds[|rounds| - 1].hits
  }

  function SumNew(rounds: seq<Round>): nat
    decreases |rounds|
  {
    if rounds == [] then 0 else SumNew(rounds[..|rounds| - 1]) + rounds[|rounds| - 1].newHits
  }

  /** The rounds' new hits add up to the distinct items, their hits to all the hits. */
  lemma {:induction false} RoundsAddUp(trace: seq<Asked>)
    ensures |RoundsOf(trace)| == |trace|
    ensures SumNew(RoundsOf(trace)) == |SeenAfter(trace).order| == |SeenAfter(trace).best|
    ensures SumHits(RoundsOf(trace)) == |Flatten(trace)|
    decreases |trace|
  {
    MergeIsBest(Flatten(trace));
    OrderSize(SeenAfter(trace));
    if trace != [] {
      RoundsAddUp(trace[..|trace| - 1]);
      var rounds := RoundsOf(trace);
      assert rounds[..|rounds| - 1] == RoundsOf(trace[..|trace| - 1]);
    }
  }

  /** The items a round was first to find. */
  function NewItems(trace: seq<Asked>, i: nat): set<string>
    requires i < |trace|
  {
    set h | h in trace[i].hits && !AnyWith(Flatten(trace[..i]), h.itemId) :: h.itemId
  }

  predicate RecordsRound(trace: seq<Asked>, i: nat, r: Round)
    requires i < |trace|
  {
    && r.number == trace[i].number && r.query == trace[i].query && r.strategy == trace[i].strategy
    && r.hits == |trace[i].hits| && r.newHits == |NewItems(trace, i)|
  }

  lemma NewItemsCount(trace: seq<Asked>)
    requires trace != []
    ensures |SeenAfter(trace).order| - |SeenAfter(trace[..|trace| - 1]).order| == |NewItems(trace, |trace| - 1)|
  {
    var init, a := trace[..|trace| - 1], trace[|trace| - 1];
    var s, t := SeenAfter(init).best.Keys, SeenAfter(trace).best.Keys;
    MergeIsBest(Flatten(init));
    MergeIsBest(Flatten(trace));
    OrderSize(SeenAfter(init));
    OrderSize(SeenAfter(trace));
    forall id ensures id in t <==> id in s || id in NewItems(trace, |trace| - 1) {
      AnyWithConcat(Flatten(init), a.hits, id);
      if AnyWith(a.hits, id) {
        var k :| 0 <= k < |a.hits| && a.hits[k].itemId == id;
        assert a.hits[k] in a.hits;
      }
    }
    assert t == s + NewItems(trace, |trace| - 1);
  }

  lemma AnyWithConcat(a: seq<Hit>, b: seq<Hit>, id: string)
    ensures AnyWith(a + b, id) <==> AnyWith(a, id) || AnyWith(b, id)
  {
    var all := a + b;
    if i :| 0 <= i < |a| && a[i].itemId == id { assert all[i].itemId == id; }
    if i :| 0 <= i < |b| && b[i].itemId == id { assert all[|a| + i].itemId == id; }
    if i :| 0 <= i < |all| && all[i].itemId == id {
      if i < |a| { assert a[i].itemId == id; } else { assert b[i - |a|].itemId == id; }
    }
  }

  /** The rounds on record are those that were asked, each with its number, query and strategy,
      how many hits it had, and how many items it was the first to find. */
  lemma {:induction false} RoundsAreRecorded(trace: seq<Asked>, i: nat)
    requires i < |trace|
    ensures |RoundsOf(trace)| == |trace| && RecordsRound(trace, i, RoundsOf(trace)[i])
    decreases |trace|
  {
    var init := trace[..|trace| - 1];
    RoundsAddUp(init);
    if i < |init| {
      RoundsAreRecorded(init, i);
      assert trace[..i] == init[..i];
      assert RoundsOf(trace)[i] == RoundsOf(init)[i];
    } else {
      NewItemsCount(trace);
    }
  }

  /** The result of merging everything the rounds brought in: one hit per item, the first best
      one, in descending order of score, and of equal ones in the order their items were found. */
  ghost predicate IsMerged(hits: seq<Hit>, results: seq<Hit>) {
    && Descending(results, HitScore) && TiesAsFound(hits, results)
    && (forall i, j :: 0 <= i < j < |results| ==> results[i].itemId != results[j].itemId)
    && (forall id :: AnyWith(hits, id) <==> AnyWith(results, id))
    && forall i :: 0 <= i < |results| ==> FirstBest(hits, results[i])
  }

  predicate TiesAsFound(hits: seq<Hit>, results: seq<Hit>) {
    forall i, j :: 0 <= i < j < |results| && results[i].score == results[j].score ==>
      FoundSooner(hits, results[i].itemId, results[j].itemId)
  }

  lemma {:induction false} RankedTies(hits: seq<Hit>)
    requires IsBest(hits, Merge(NOTHING, hits)) && Listed(Merge(NOTHING, hits))
    ensures TiesAsFound(hits, SortDesc(Values(Merge(NOTHING, hits)), HitScore))
  {
    var s := Merge(NOTHING, hits);
    var results := SortDesc(Values(s), HitScore);
    forall i, j | 0 <= i < j < |results| && results[i].score == results[j].score
      ensures FoundSooner(hits, results[i].itemId, results[j].itemId)
    {
      var p, q := EqualsKeepOrder(Values(s), HitScore, i, j);
      OrderIsFirstFound(hits, p, q);
      assert results[i].itemId == s.order[p] && results[j].itemId == s.order[q];
    }
  }

  lemma SameMembers(a: seq<Hit>, b: seq<Hit>)
    requires multiset(a) == multiset(b)
    ensures forall h :: h in a <==> h in b
  {
    assert forall h :: h in a <==> h in multiset(a);
    assert forall h :: h in b <==> h in multiset(b);
  }

  lemma ValuesOfBest(hits: seq<Hit>, s: Seen)
    requires IsBest(hits, s) && Listed(s)
    ensures var values := Values(s);
            && |values| == |s.order|
            && (forall i, j :: 0 <= i < j < |values| ==> values[i].itemId != values[j].itemId)
            && (forall id :: AnyWith(hits, id) <==> AnyWith(values, id))
            && forall h :: h in values ==> FirstBest(hits, h)
  {
    var values := Values(s);
    forall id ensures AnyWith(hits, id) <==> AnyWith(values, id) {
      if AnyWith(hits, id) {
        var i :| 0 <= i < |s.order| && s.order[i] == id;
        assert values[i].itemId == id;
      }
    }
  }

  lemma SameIds(a: seq<Hit>, b: seq<Hit>, id: string)
    requires forall h :: h in a ==> h in b
    requires AnyWith(a, id)
    ensures AnyWith(b, id)
  {
    var i :| 0 <= i < |a| && a[i].itemId == id;
    assert a[i] in b;
    var k :| 0 <= k < |b| && b[k] == a[i];
  }

  /** A sorted permutation of the first best hits, one per item, is the merged list. */
  lemma MergedByPermuting(hits: seq<Hit>, values: seq<Hit>, results: seq<Hit>)
    requires multiset(results) == multiset(values) && Descending(results, HitScore) && TiesAsFound(hits, results)
    requires forall i, j :: 0 <= i < j < |values| ==> values[i].itemId != values[j].itemId
    requires forall id :: AnyWith(hits, id) <==> AnyWith(values, id)
    requires forall h :: h in values ==> FirstBest(hits, h)
    ensures IsMerged(hits, results) && |results| == |values|
  {
    SameLength(results, values);
    SameMembers(results, values);
    DistinctIds(values, results);
    SameItems(values, results);
  }

  /** The merged list: sorting the dictionary's values. */
  lemma RankedIsMerged(hits: seq<Hit>)
    ensures Listed(Merge(NOTHING, hits))
    ensures IsMerged(hits, SortDesc(Values(Merge(NOTHING, hits)), HitScore))
    ensures |SortDesc(Values(Merge(NOTHING, hits)), HitScore)| == |Merge(NOTHING, hits).best|
  {
    MergeIsBest(hits);
    var s := Merge(NOTHING, hits);
    ValuesOfBest(hits, s);
    RankedTies(hits);
    SortDescSorts(Values(s), HitScore);
    OrderSize(s);
    MergedByPermuting(hits, Values(s), SortDesc(Values(s), HitScore));
  }

  lemma SameItems(values: seq<Hit>, results: seq<Hit>)
    requires forall h :: h in values <==> h in results
    ensures forall id :: AnyWith(values, id) <==> AnyWith(results, id)
  {
    forall id ensures AnyWith(values, id) <==> AnyWith(results, id) {
      if AnyWith(values, id) { SameIds(values, results, id); }
      if AnyWith(results, id) { SameIds(results, values, id); }
    }
  }

  lemma SameLength(a: seq<Hit>, b: seq<Hit>)
    requires multiset(a) == multiset(b)
    ensures |a| == |b|
  {
    assert |multiset(a)| == |a| && |multiset(b)| == |b|;
  }

  lemma OrderSize(s: Seen)
    requires Listed(s)
    ensures |s.order| == |s.best|
  {
    DistinctSize(s.order);
    assert s.best.Keys == set x | x in s.order;
  }

  lemma {:induction false} DistinctSize(order: seq<string>)
    requires forall i, j :: 0 <= i < j < |order| ==> order[i] != order[j]
    ensures |set x | x in order| == |order|
    decreases |order|
  {
    if order != [] {
      var init, last := order[..|order| - 1], order[|order| - 1];
      DistinctSize(init);
      assert (set x | x in order) == (set x | x in init) + {last};
      assert last !in init;
    }
  }

  /** A permutation of hits with distinct ids has distinct ids. */
  lemma DistinctIds(values: seq<Hit>, results: seq<Hit>)
    requires multiset(values) == multiset(results)
    requires forall i, j :: 0 <= i < j < |values| ==> values[i].itemId != values[j].itemId
    ensures forall i, j :: 0 <= i < j < |results| ==> results[i].itemId != results[j].itemId
  {
    forall i, j | 0 <= i < j < |results| ensures results[i].itemId != results[j].itemId {
      if results[i].itemId == results[j].itemId {
        var a, b := results[i], results[j];
        assert a in multiset(results) && b in multiset(results);
        assert a in values && b in values;
        assert a == b;
        TwiceInMultiset(results, i, j);
        OnceInMultiset(values, a);
      }
    }
  }

  lemma TwiceInMultiset(s: seq<Hit>, i: nat, j: nat)
    requires i < j < |s| && s[i] == s[j]
    ensures multiset(s)[s[i]] >= 2
  {
    assert s == s[..i] + [s[i]] + s[i + 1..j] + [s[j]] + s[j + 1..];
  }

  lemma OnceInMultiset(s: seq<Hit>, h: Hit)
    requires forall i, j :: 0 <= i < j < |s| ==> s[i].itemId != s[j].itemId
    ensures multiset(s)[h] <= 1
  {
    if h in s {
      var i :| 0 <= i < |s| && s[i] == h;
      assert s == s[..i] + [h] + s[i + 1..];
      assert h !in s[..i] && h !in s[i + 1..];
    }
  }

  // --------------------------------------------------------------------------- reranking

  const RERANK_MIN_CANDIDATES := 5
  const RERANK_CHARS := 2000

  function PairScore(p: (Hit, real)): real { p.1 }

  /** `zip(results, scores)`, as long as the shorter of the two. */
  function Zip(hits: seq<Hit>, scores: seq<real>): seq<(Hit, real)> {
    if hits == [] || scores == [] then [] else [(hits[0], scores[0])] + Zip(hits[1..], scores[1..])
  }

  function HitsOf(pairs: seq<(Hit, real)>): seq<Hit> {
    if pairs == [] then [] else [pairs[0].0] + HitsOf(pairs[1..])
  }

  /** The hits that have a score, by descending score. */
  function Reranked(hits: seq<Hit>, scores: seq<real>): seq<Hit> {
    HitsOf(SortDesc(Zip(hits, scores), PairScore))
  }

  function Texts(hits: seq<Hit>): seq<string> {
    seq(|hits|, i requires 0 <= i < |hits| =>
      if |hits[i].content| <= RERANK_CHARS then hits[i].content else hits[i].content[..RERANK_CHARS])
  }

  /** The encoder's scores; None with too few candidates, or when it is missing or fails. */
  function ScoresFor(o: Oracles, query: string, hits: seq<Hit>): Option<seq<real>> {
    if |hits| < RERANK_MIN_CANDIDATES then None else o.crossEncoder(query, Texts(hits))
  }

  /** What the encoder is shown of a hit: its first two thousand characters. */
  predicate IsExcerpt(text: string, content: string) {
    text <= content && |text| <= 2000 && (|text| < 2000 ==> text == content)
  }

  /** Fewer than five hits are not scored; others all are, by one question about an excerpt of each. */
  lemma ScoringExactly(o: Oracles, query: string, hits: seq<Hit>)
    ensures |hits| < 5 ==> ScoresFor(o, query, hits) == None
    ensures |hits| >= 5 ==>
              exists texts: seq<string> ::
                && ScoresFor(o, query, hits) == o.crossEncoder(query, texts) && |texts| == |hits|
                && forall i :: 0 <= i < |hits| ==> IsExcerpt(texts[i], hits[i].content)
  {
    assert forall i :: 0 <= i < |hits| ==> IsExcerpt(Texts(hits)[i], hits[i].content);
  }

  lemma {:induction false} ZipTruncates(hits: seq<Hit>, scores: seq<real>)
    ensures var n := if |hits| <= |scores| then |hits| else |scores|;
            |Zip(hits, scores)| == n && HitsOf(Zip(hits, scores)) == hits[..n]
    decreases |hits|
  {
    if hits != [] && scores != [] {
      ZipTruncates(hits[1..], scores[1..]);
      var pairs := Zip(hits, scores);
      assert pairs[1..] == Zip(hits[1..], scores[1..]);
    }
  }

  lemma {:induction false} HitsOfCons(p: (Hit, real), pairs: seq<(Hit, real)>)
    ensures HitsOf([p] + pairs) == [p.0] + HitsOf(pairs)
  {
    assert ([p] + pairs)[1..] == pairs;
  }

  lemma {:induction false} HitsOfInserted(p: (Hit, real), pairs: seq<(Hit, real)>)
    ensures multiset(HitsOf(InsertDesc(p, pairs, PairScore))) == multiset(HitsOf(pairs)) + multiset{p.0}
    decreases |pairs|
  {
    if pairs == [] || PairScore(pairs[0]) <= PairScore(p) {
      HitsOfCons(p, pairs);
    } else {
      HitsOfInserted(p, pairs[1..]);
      HitsOfCons(pairs[0], InsertDesc(p, pairs[1..], PairScore));
    }
  }

  lemma {:induction false} HitsOfSorted(pairs: seq<(Hit, real)>)
    ensures multiset(HitsOf(SortDesc(pairs, PairScore))) == multiset(HitsOf(pairs))
    decreases |pairs|
  {
    if pairs != [] {
      HitsOfSorted(pairs[1..]);
      HitsOfInserted(pairs[0], SortDesc(pairs[1..], PairScore));
    }
  }

  /** `out` is a reordering of the first `n` hits, still one per item. */
  predicate Reorders(hits: seq<Hit>, n: nat, out: seq<Hit>) {
    && |out| == n <= |hits| && multiset(out) == multiset(hits[..n])
    && forall i, j :: 0 <= i < j < |out| ==> out[i].itemId != out[j].itemId
  }

  /** How many hits reranking can keep. */
  function Rankable(hits: seq<Hit>, scores: Option<seq<real>>): nat {
    if scores.None? || |hits| <= |scores.value| then |hits| else |scores.value|
  }

  function Finished(hits: seq<Hit>, scores: Option<seq<real>>): seq<Hit> {
    if scores.Some? then Reranked(hits, scores.value) else hits
  }

  /** Reranking reorders the first hits, as many as have a score, and drops the rest: nothing
      is dropped exactly when there are at least as many scores as hits, or none were given. */
  lemma RerankKeepsExactly(hits: seq<Hit>, scores: Option<seq<real>>)
    requires forall i, j :: 0 <= i < j < |hits| ==> hits[i].itemId != hits[j].itemId
    ensures Reorders(hits, Rankable(hits, scores), Finished(hits, scores))
    ensures |Finished(hits, scores)| == |hits| <==> (scores.Some? ==> |scores.value| >= |hits|)
  {
    if scores.Some? {
      var pairs := Zip(hits, scores.value);
      ZipTruncates(hits, scores.value);
      HitsOfSorted(pairs);
      SameLength(Reranked(hits, scores.value), hits[..|pairs|]);
      DistinctIds(hits[..|pairs|], Reranked(hits, scores.value));
    } else {
      assert hits[..|hits|] == hits;
    }
  }

  /** The reranked list goes by descending encoder score, and among equal ones as before. */
  lemma RerankSorts(hits: seq<Hit>, scores: seq<real>)
    ensures var zip := Zip(hits, scores);
            exists pairs :: && multiset(pairs) == multiset(zip) && Descending(pairs, PairScore)
                            && (forall v :: WithScore(pairs, PairScore, v) == WithScore(zip, PairScore, v))
                            && HitsOf(pairs) == Reranked(hits, scores)
  {
    SortDescSorts(Zip(hits, scores), PairScore);
    assert HitsOf(SortDesc(Zip(hits, scores), PairScore)) == Reranked(hits, scores);
  }

  /** An encoder that answers with no scores empties the list. */
  lemma MissingScoresDropAll(hits: seq<Hit>)
    ensures Reranked(hits, []) == []
  {
  }

  // ---------------------------------------------------------------------------- the rounds

  datatype Oracles = Oracles(
    search: (nat, string) -> seq<Hit>, hybrid: seq<Hit>, pseudoDocument: string,
    lexicon: Option<seq<string>>, prf: (string, seq<Hit>) -> string,
    llmQueries: (int, seq<string>) -> seq<string>, gaps: (nat, seq<Hit>) -> seq<string>,
    crossEncoder: (string, seq<string>) -> Option<seq<real>>)

  function Ask(o: Oracles, t: seq<Asked>, number: int, query: string, strategy: string): seq<Asked> {
    t + [Asked(number, query, strategy, o.search(|t|, query))]
  }

  function AskAll(o: Oracles, t: seq<Asked>, number: int, queries: seq<string>, strategy: string): seq<Asked>
    decreases |queries|
  {
    if queries == [] then t
    else Ask(o, AskAll(o, t, number, queries[..|queries| - 1], strategy),
             number, queries[|queries| - 1], strategy)
  }

  /** The hits on record, one per item, in the order the items were first found. */
  function Found(t: seq<Asked>): seq<Hit> {
    MergeIsBest(Flatten(t));
    Values(SeenAfter(t))
  }

  function FirstRounds(o: Oracles, query: string): seq<Asked> {
    var t := Ask(o, [], 1, query, "bm25_raw");
    if o.hybrid != [] then t + [Asked(1, query, "hybrid_rrf", o.hybrid)] else t
  }

  function ExpandedRounds(o: Oracles, query: string, t: seq<Asked>): seq<Asked> {
    var t1 := if o.pseudoDocument != "" then Ask(o, t, 1, o.pseudoDocument, "bm25_hyde") else t;
    if o.lexicon.Some? then AskAll(o, t1, 2, o.lexicon.value, "bm25_lexicon") else t1
  }

  function FeedbackRound(o: Oracles, query: string, t: seq<Asked>): seq<Asked> {
    if SeenAfter(t).order == [] then t
    else
      var q := o.prf(query, Found(t));
      if q != "" && q != query then Ask(o, t, 2, q, "bm25_prf") else t
  }

  function LlmRounds(o: Oracles, t: seq<Asked>, roundNum: int, maxRounds: int): seq<Asked>
    decreases maxRounds + 1 - roundNum
  {
    if roundNum > maxRounds then t
    else
      var queries := o.llmQueries(roundNum, SeenAfter(t).order);
      if queries == [] then t
      else LlmRounds(o, AskAll(o, t, roundNum, queries, "bm25_llm"), roundNum + 1, maxRounds)
  }

  function GapRounds(o: Oracles, t: seq<Asked>, k: nat): seq<Asked>
    decreases 2 - k
  {
    if k >= 2 then t
    else
      var queries := o.gaps(k, Found(t));
      if queries == [] then t
      else GapRounds(o, AskAll(o, t, 4 + k, queries, "bm25_reflect"), k + 1)
  }

  /** The rounds the pipeline runs, in terms of what its oracles answer. */
  function Pipeline(o: Oracles, query: string, maxRounds: int, hasModel: bool): seq<Asked> {
    var t := FirstRounds(o, query);
    if maxRounds < 2 then t
    else
      var t2 := FeedbackRound(o, query, ExpandedRounds(o, query, t));
      if maxRounds < 3 then t2
      else
        var t3 := LlmRounds(o, t2, 3, maxRounds);
        if hasModel then GapRounds(o, t3, 0) else t3
  }

  // -------------------------------------------------------------- the rounds, one by one

  /** One search per query, in order, each told how many rounds came before it. */
  predicate Answers(o: Oracles, before: nat, wave: seq<Asked>, number: int, queries: seq<string>, strategy: string) {
    && |wave| == |queries|
    && forall i :: 0 <= i < |wave| ==>
         wave[i] == Asked(number, queries[i], strategy, o.search(before + i, queries[i]))
  }

  /** `t` with all the waves after it. */
  function After(t: seq<Asked>, waves: seq<seq<Asked>>): seq<Asked>
    decreases |waves|
  {
    if waves == [] then t else After(t + waves[0], waves[1..])
  }

  predicate IsWave(o: Oracles, t: seq<Asked>, wave: seq<Asked>, number: int, queries: seq<string>, strategy: string) {
    queries != [] && Answers(o, |t|, wave, number, queries, strategy)
  }

  /** Waves of searches after `t`, the `k`-th asking what `asks(k, ...)` makes of all that came
      before it, from `lo` until there is nothing to ask or `hi` is reached. */
  ghost predicate Waves(o: Oracles, t: seq<Asked>, waves: seq<seq<Asked>>, lo: int, hi: int, base: int,
                        strategy: string, asks: (int, seq<Asked>) -> seq<string>) {
    && |waves| <= (if hi > lo then hi - lo else 0)
    && (forall i :: 0 <= i < |waves| ==>
          var before := After(t, waves[..i]);
          IsWave(o, before, waves[i], base + lo + i, asks(lo + i, before), strategy))
    && (lo + |waves| < hi ==> asks(lo + |waves|, After(t, waves)) == [])
  }

  lemma {:induction false} AskAllAnswers(o: Oracles, t: seq<Asked>, number: int, queries: seq<string>, strategy: string)
    returns (wave: seq<Asked>)
    ensures AskAll(o, t, number, queries, strategy) == t + wave && Answers(o, |t|, wave, number, queries, strategy)
    decreases |queries|
  {
    if queries == [] {
      wave := [];
    } else {
      var init, q := queries[..|queries| - 1], queries[|queries| - 1];
      var w := AskAllAnswers(o, t, number, init, strategy);
      wave := w + [Asked(number, q, strategy, o.search(|t + w|, q))];
    }
  }

  lemma {:induction false} WavesCons(o: Oracles, t: seq<Asked>, wave: seq<Asked>, rest: seq<seq<Asked>>, lo: int,
                                     hi: int, base: int, strategy: string, asks: (int, seq<Asked>) -> seq<string>)
    requires lo < hi && IsWave(o, t, wave, base + lo, asks(lo, t), strategy)
    requires Waves(o, t + wave, rest, lo + 1, hi, base, strategy, asks)
    ensures Waves(o, t, [wave] + rest, lo, hi, base, strategy, asks) && After(t, [wave] + rest) == After(t + wave, rest)
  {
    var all := [wave] + rest;
    assert all[1..] == rest;
    forall i | 0 <= i < |all|
      ensures var before := After(t, all[..i]);
              IsWave(o, before, all[i], base + lo + i, asks(lo + i, before), strategy)
    {
      if i > 0 {
        assert all[..i][1..] == rest[..i - 1] && all[..i][0] == wave;
        assert After(t, all[..i]) == After(t + wave, rest[..i - 1]);
      }
    }
  }

  lemma WavesEnd(o: Oracles, t: seq<Asked>, lo: int, hi: int, base: int, strategy: string,
                 asks: (int, seq<Asked>) -> seq<string>)
    requires lo < hi ==> asks(lo, t) == []
    ensures Waves(o, t, [], lo, hi, base, strategy, asks) && After(t, []) == t
  {
  }

  /** A language model is asked with the round's number and the items found so far. */
  function LlmAsks(o: Oracles): (int, seq<Asked>) -> seq<string> { (n, t) => o.llmQueries(n, SeenAfter(t).order) }

  /** The reflection is asked with the pass and the hits found so far. */
  function GapAsks(o: Oracles): (int, seq<Asked>) -> seq<string> {
    (k, t) => if k >= 0 then o.gaps(k, Found(t)) else []
  }

  lemma {:induction false} LlmIsWaves(o: Oracles, t: seq<Asked>, roundNum: int, maxRounds: int)
    returns (waves: seq<seq<Asked>>)
    ensures Waves(o, t, waves, roundNum, maxRounds + 1, 0, "bm25_llm", LlmAsks(o))
    ensures LlmRounds(o, t, roundNum, maxRounds) == After(t, waves)
    decreases maxRounds + 1 - roundNum
  {
    var queries := o.llmQueries(roundNum, SeenAfter(t).order);
    assert LlmAsks(o)(roundNum, t) == queries;
    if roundNum > maxRounds || queries == [] {
      waves := [];
      WavesEnd(o, t, roundNum, maxRounds + 1, 0, "bm25_llm", LlmAsks(o));
    } else {
      var wave := AskAllAnswers(o, t, roundNum, queries, "bm25_llm");
      assert LlmRounds(o, t, roundNum, maxRounds) == LlmRounds(o, t + wave, roundNum + 1, maxRounds);
      var rest := LlmIsWaves(o, t + wave, roundNum + 1, maxRounds);
      waves := [wave] + rest;
      WavesCons(o, t, wave, rest, roundNum, maxRounds + 1, 0, "bm25_llm", LlmAsks(o));
    }
  }

  lemma {:induction false} GapsAreWaves(o: Oracles, t: seq<Asked>, k: nat) returns (waves: seq<seq<Asked>>)
    requires k <= 2
    ensures Waves(o, t, waves, k, 2, 4, "bm25_reflect", GapAsks(o)) && GapRounds(o, t, k) == After(t, waves)
    decreases 2 - k
  {
    var queries := o.gaps(k, Found(t));
    if k == 2 || queries == [] {
      waves := [];
      WavesEnd(o, t, k, 2, 4, "bm25_reflect", GapAsks(o));
    } else {
      var wave := AskAllAnswers(o, t, 4 + k, queries, "bm25_reflect");
      var rest := GapsAreWaves(o, t + wave, k + 1);
      waves := [wave] + rest;
      WavesCons(o, t, wave, rest, k, 2, 4, "bm25_reflect", GapAsks(o));
    }
  }

  /** The whole pipeline in full.  `raw`: the query itself, and the hybrid's hits if it has any.
      `hyde`: the pseudo-document, if there is one.  `lexicon`: every expansion, if there is a
      lexicon.  `prf`: the feedback query, if anything was found and it is a new one.  `llm`: waves
      of alternative queries, numbered from 3 up to the limit, until there are none.  `gaps`: at
      most two waves after the gaps, numbered 4 and 5, with a model only.  A limit of one round
      ends it after `raw`, a limit of two after `prf`. */
  ghost predicate InFull(o: Oracles, query: string, maxRounds: int, hasModel: bool, lexicon: seq<Asked>,
                         llm: seq<seq<Asked>>, gaps: seq<seq<Asked>>, trace: seq<Asked>) {
    var first := [Asked(1, query, "bm25_raw", o.search(0, query))];
    var raw := if o.hybrid != [] then first + [Asked(1, query, "hybrid_rrf", o.hybrid)] else first;
    var pseudo := o.pseudoDocument;
    var hyde := if pseudo != "" then raw + [Asked(1, pseudo, "bm25_hyde", o.search(|raw|, pseudo))] else raw;
    var expanded := hyde + lexicon;
    var feedback := o.prf(query, Found(expanded));
    var prf := if Found(expanded) != [] && feedback != "" && feedback != query
               then expanded + [Asked(2, feedback, "bm25_prf", o.search(|expanded|, feedback))] else expanded;
    && Answers(o, |hyde|, lexicon, 2, if o.lexicon.Some? then o.lexicon.value else [], "bm25_lexicon")
    && Waves(o, prf, llm, 3, maxRounds + 1, 0, "bm25_llm", LlmAsks(o))
    && Waves(o, After(prf, llm), gaps, 0, 2, 4, "bm25_reflect", GapAsks(o))
    && trace == if maxRounds < 2 then raw else if maxRounds < 3 then prf
                else if hasModel then After(After(prf, llm), gaps) else After(prf, llm)
  }

  lemma {:induction false} RawInFull(o: Oracles, query: string)
    ensures var first := [Asked(1, query, "bm25_raw", o.search(0, query))];
            FirstRounds(o, query)
            == if o.hybrid != [] then first + [Asked(1, query, "hybrid_rrf", o.hybrid)] else first
  {
    assert [] + [Asked(1, query, "bm25_raw", o.search(0, query))] == [Asked(1, query, "bm25_raw", o.search(0, query))];
  }

  lemma {:induction false} ExpandedInFull(o: Oracles, query: string, raw: seq<Asked>) returns (lexicon: seq<Asked>)
    ensures var pseudo := o.pseudoDocument;
            var hyde := if pseudo != "" then raw + [Asked(1, pseudo, "bm25_hyde", o.search(|raw|, pseudo))] else raw;
            && Answers(o, |hyde|, lexicon, 2, if o.lexicon.Some? then o.lexicon.value else [], "bm25_lexicon")
            && ExpandedRounds(o, query, raw) == hyde + lexicon
  {
    var hyde := if o.pseudoDocument != "" then Ask(o, raw, 1, o.pseudoDocument, "bm25_hyde") else raw;
    lexicon := AskAllAnswers(o, hyde, 2, if o.lexicon.Some? then o.lexicon.value else [], "bm25_lexicon");
    if o.lexicon.None? { assert hyde + lexicon == hyde; }
  }

  lemma {:induction false} FeedbackInFull(o: Oracles, query: string, expanded: seq<Asked>)
    ensures var feedback := o.prf(query, Found(expanded));
            FeedbackRound(o, query, expanded)
            == if Found(expanded) != [] && feedback != "" && feedback != query
               then expanded + [Asked(2, feedback, "bm25_prf", o.search(|expanded|, feedback))] else expanded
  {
    assert |Found(expanded)| == |SeenAfter(expanded).order|;
  }

  lemma {:induction false} PipelineInFull(o: Oracles, query: string, maxRounds: int, hasModel: bool)
    returns (lexicon: seq<Asked>, llm: seq<seq<Asked>>, gaps: seq<seq<Asked>>)
    ensures InFull(o, query, maxRounds, hasModel, lexicon, llm, gaps, Pipeline(o, query, maxRounds, hasModel))
  {
    RawInFull(o, query);
    lexicon := ExpandedInFull(o, query, FirstRounds(o, query));
    var expanded := ExpandedRounds(o, query, FirstRounds(o, query));
    FeedbackInFull(o, query, expanded);
    var prf := FeedbackRound(o, query, expanded);
    llm := LlmIsWaves(o, prf, 3, maxRounds);
    gaps := GapsAreWaves(o, After(prf, llm), 0);
  }

  datatype Retrieved = Retrieved(results: seq<Hit>, rounds: seq<Round>, totalRounds: nat,
                                 totalHits: nat, uniqueItems: nat)

  class Retrieval {
    const o: Oracles
    var order: seq<string>
    var best: map<string, Hit>
    var rounds: seq<Round>
    ghost var trace: seq<Asked>

    ghost predicate Valid()
      reads this
    {
      Seen(order, best) == SeenAfter(trace) && rounds == RoundsOf(trace) && |rounds| == |trace|
    }

    constructor (o: Oracles)
      ensures Valid() && trace == [] && this.o == o
    {
      this.o := o;
      order, best, rounds, trace := [], map[], [], [];
    }

    /** `_merge_results` */
    method MergeResults(hits: seq<Hit>) returns (newCount: nat)
      modifies this`order, this`best
      ensures Seen(order, best) == Merge(Seen(old(order), old(best)), hits)
      ensures |order| == |old(order)| + newCount
    {
      newCount := 0;
      ghost var start := Seen(order, best);
      for i := 0 to |hits|
        invariant Seen(order, best) == Merge(start, hits[..i])
        invariant |order| == |start.order| + newCount
      {
        assert hits[..i + 1][..i] == hits[..i];
        var r := hits[i];
        if r.itemId !in best {
          order := order + [r.itemId];
          best := best[r.itemId := r];
          newCount := newCount + 1;
        } else if r.score > best[r.itemId].score {
          best := best[r.itemId := r];
        }
      }
      assert hits[..|hits|] == hits;
    }

    /** One round: merge its hits and put its numbers on record. */
    method AddRound(number: int, query: string, strategy: string, hits: seq<Hit>)
      requires Valid()
      modifies this
      ensures Valid() && trace == old(trace) + [Asked(number, query, strategy, hits)]
    {
      var newCount := MergeResults(hits);
      rounds := rounds + [Round(number, query, strategy, |hits|, newCount)];
      ghost var was := trace;
      trace := trace + [Asked(number, query, strategy, hits)];
      assert trace[..|was|] == was;
      MergeConcat(NOTHING, Flatten(was), hits);
    }

    method Search(number: int, query: string, strategy: string)
      requires Valid()
      modifies this
      ensures Valid() && trace == Ask(o, old(trace), number, query, strategy)
    {
      AddRound(number, query, strategy, o.search(|rounds|, query));
    }

    method SearchAll(number: int, queries: seq<string>, strategy: string)
      requires Valid()
      modifies this
      ensures Valid() && trace == AskAll(o, old(trace), number, queries, strategy)
    {
      ghost var start := trace;
      for i := 0 to |queries|
        invariant Valid() && trace == AskAll(o, start, number, queries[..i], strategy)
      {
        assert queries[..i + 1][..i] == queries[..i];
        Search(number, queries[i], strategy);
      }
      assert queries[..|queries|] == queries;
    }

    /** `list(seen_ids.values())` */
    method SeenValues() returns (values: seq<Hit>)
      requires Valid()
      ensures values == Found(trace)
    {
      MergeIsBest(Flatten(trace));
      values := Values(Seen(order, best));
    }

    /** `_build_result` */
    method BuildResult() returns (r: Retrieved)
      requires Valid()
      ensures IsMerged(Flatten(trace), r.results) && r.rounds == RoundsOf(trace)
      ensures |r.results| == r.uniqueItems == SumNew(r.rounds)
      ensures r.totalHits == SumHits(r.rounds) == |Flatten(trace)| && r.totalRounds == |r.rounds|
    {
      RankedIsMerged(Flatten(trace));
      RoundsAddUp(trace);
      var values := SeenValues();
      r := Retrieved(SortDesc(values, HitScore), rounds, |rounds|, SumHits(rounds), |best|);
    }

    /** The whole pipeline: the rounds it runs, what their numbers add up to, and the merged
        list, which the last step may reorder and truncate. */
    method AdaptiveRetrieve(query: string, maxRounds: int, hasModel: bool)
      returns (r: Retrieved, ghost merged: seq<Hit>)
      requires Valid() && trace == []
      modifies this
      ensures Valid() && trace == Pipeline(o, query, maxRounds, hasModel) && r.rounds == RoundsOf(trace)
      ensures IsMerged(Flatten(trace), merged)
      ensures r.uniqueItems == |merged| == SumNew(r.rounds)
      ensures r.totalHits == SumHits(r.rounds) == |Flatten(trace)| && r.totalRounds == |r.rounds|
      ensures var scores := if maxRounds >= 3 then ScoresFor(o, query, merged) else None;
              && r.results == Finished(merged, scores) && Reorders(merged, Rankable(merged, scores), r.results)
              && (|r.results| == r.uniqueItems <==> (scores.Some? ==> |scores.value| >= |merged|))
    {
      Search(1, query, "bm25_raw");
      if o.hybrid != [] {
        AddRound(1, query, "hybrid_rrf", o.hybrid);
      }
      assert trace == FirstRounds(o, query);
      if maxRounds < 2 {
        r := BuildResult();
        RerankKeepsExactly(r.results, None);
        return r, r.results;
      }
      Expand(query);
      if maxRounds < 3 {
        r := BuildResult();
        RerankKeepsExactly(r.results, None);
        return r, r.results;
      }
      AskLlm(maxRounds);
      if hasModel {
        Reflect();
      }
      r := BuildResult();
      merged := r.results;
      var scores := ScoresFor(o, query, r.results);
      RerankKeepsExactly(merged, scores);
      if scores.Some? {
        r := r.(results := Reranked(r.results, scores.value));
      }
    }

    /** Rounds 1.5, 2 and 2.5. */
    method Expand(query: string)
      requires Valid()
      modifies this
      ensures Valid() && trace == FeedbackRound(o, query, ExpandedRounds(o, query, old(trace)))
    {
      ghost var start := trace;
      if o.pseudoDocument != "" {
        Search(1, o.pseudoDocument, "bm25_hyde");
      }
      if o.lexicon.Some? {
        SearchAll(2, o.lexicon.value, "bm25_lexicon");
      }
      assert trace == ExpandedRounds(o, query, start);
      if order != [] {
        var values := SeenValues();
        var prfQuery := o.prf(query, values);
        if prfQuery != "" && prfQuery != query {
          Search(2, prfQuery, "bm25_prf");
        }
      }
    }

    /** Rounds of alternative queries, until there are none to try. */
    method AskLlm(maxRounds: int)
      requires Valid()
      modifies this
      ensures Valid() && trace == LlmRounds(o, old(trace), 3, maxRounds)
    {
      ghost var start := trace;
      var roundNum := 3;
      while roundNum <= maxRounds
        invariant Valid() && LlmRounds(o, trace, roundNum, maxRounds) == LlmRounds(o, start, 3, maxRounds)
      {
        var queries := o.llmQueries(roundNum, order);
        if queries == [] {
          return;
        }
        SearchAll(roundNum, queries, "bm25_llm");
        roundNum := roundNum + 1;
      }
    }

    /** At most two passes over the gaps in coverage. */
    method Reflect()
      requires Valid()
      modifies this
      ensures Valid() && trace == GapRounds(o, old(trace), 0)
    {
      ghost var start := trace;
      for k: nat := 0 to 2
        invariant Valid() && GapRounds(o, trace, k) == GapRounds(o, start, 0)
      {
        var values := SeenValues();
        var queries := o.gaps(k, values);
        if queries == [] {
          return;
        }
        SearchAll(4 + k, queries, "bm25_reflect");
      }
    }
  }
}
