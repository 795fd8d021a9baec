/**
 * The `sources` of a chat answer (server/main.py, process_chat): retrieved documents are grouped
 * by `("document", title)` in an insertion-ordered dictionary, each group collecting the
 * documents' search scores, and the groups are ranked by their best score, highest first,
 * with Python's stable `sorted(..., reverse=True)`.
 */
module Sources {

  /** A search score; the code only compares scores and takes their maximum. */
  type Score = int

  /** A retrieved document: its `metadata["title"]` and `metadata["@search.score"]`. */
  datatype Doc = Doc(title: string, score: Score)

  /** The dictionary key `("document", title)`. */
  datatype Key = Key(kind: string, title: string)

  /** One item of the dictionary: a key and the scores appended under it. */
  datatype Entry = Entry(key: Key, scores: seq<Score>)

  function KeyOf(d: Doc): Key {
    Key("document", d.title)
  }

  // ---------------------------------------------------------------------------------------------
  // Reference definitions: what the grouping should contain, stated over the documents alone.

  /** The scores of the documents under key `k`, in retrieval order. */
  function ScoresOf(docs: seq<Doc>, k: Key): seq<Score>
  {
    if docs == [] then []
    else ScoresOf(docs[..|docs| - 1], k) + (if KeyOf(docs[|docs| - 1]) == k then [docs[|docs| - 1].score] else [])
  }

  /** The distinct keys of the documents, in order of first appearance. */
  function KeysOf(docs: seq<Doc>): seq<Key>
  {
    if docs == [] then []
    else
      var ks := KeysOf(docs[..|docs| - 1]);
      if KeyOf(docs[|docs| - 1]) in ks then ks else ks + [KeyOf(docs[|docs| - 1])]
  }

  /** The keys present in the dictionary. */
  function GroupKeys(groups: seq<Entry>): set<Key> {
    set i | 0 <= i < |groups| :: groups[i].key
  }

  /** The keys of the retrieved documents. */
  function DocKeys(docs: seq<Doc>): set<Key> {
    set d | d in docs :: KeyOf(d)
  }

  predicate DistinctKeys(groups: seq<Entry>) {
    forall i, j :: 0 <= i < j < |groups| ==> groups[i].key != groups[j].key
  }

  /** The number of scores held by all the groups together. */
  function TotalScores(groups: seq<Entry>): nat {
    if groups == [] then 0 else |groups[0].scores| + TotalScores(groups[1..])
  }

  // ---------------------------------------------------------------------------------------------
  // The dictionary as the loop builds it.

  /** The position of key `k` among the groups, or `|groups|` when the dictionary lacks it. */
  function IndexOfKey(groups: seq<Entry>, k: Key): (j: nat)
    ensures j <= |groups|
    ensures j < |groups| ==> groups[j].key == k
    ensures forall i :: 0 <= i < j ==> groups[i].key != k
  {
    if groups == [] then 0
    else if groups[0].key == k then 0
    else 1 + IndexOfKey(groups[1..], k)
  }

  /** `sources_metadata[KeyOf(d)].append(d.score)` on a `defaultdict(list)`. */
  function AppendScore(groups: seq<Entry>, d: Doc): (r: seq<Entry>)
    ensures |r| == |groups| <==> exists i :: 0 <= i < |groups| && groups[i].key == KeyOf(d)
    ensures |r| == |groups| || |r| == |groups| + 1
    ensures forall i :: 0 <= i < |groups| ==> r[i].key == groups[i].key
    ensures |r| > |groups| ==> r[|groups|] == Entry(KeyOf(d), [d.score])
    ensures forall i :: 0 <= i < |groups| ==>
              r[i].scores == groups[i].scores + (if i == IndexOfKey(groups, KeyOf(d)) then [d.score] else [])
    ensures TotalScores(r) == TotalScores(groups) + 1
  {
    var j := IndexOfKey(groups, KeyOf(d));
    if j < |groups| then
      var e := Entry(groups[j].key, groups[j].scores + [d.score]);
      TotalScoresUpdate(groups, j, e);
      groups[j := e]
    else
      var e := Entry(KeyOf(d), [d.score]);
      TotalScoresAppend(groups, e);
      groups + [e]
  }

  /** The dictionary after the loop has appended every document's score. */
  function Grouped(docs: seq<Doc>): (r: seq<Entry>)
    ensures |r| <= |docs|
    ensures docs != [] ==> r != []
  {
    if docs == [] then [] else AppendScore(Grouped(docs[..|docs| - 1]), docs[|docs| - 1])
  }

  lemma {:induction false} KeysOfDistinct(docs: seq<Doc>)
    ensures forall i, j :: 0 <= i < j < |KeysOf(docs)| ==> KeysOf(docs)[i] != KeysOf(docs)[j]
    ensures forall k :: k in KeysOf(docs) <==> exists d :: d in docs && KeyOf(d) == k
  {
    if docs != [] {
      var init := docs[..|docs| - 1];
      KeysOfDistinct(init);
      assert docs == init + [docs[|docs| - 1]];
      forall k | k in KeysOf(docs) ensures exists d :: d in docs && KeyOf(d) == k {
        if k in KeysOf(init) {
          var d :| d in init && KeyOf(d) == k;
          assert d in docs;
        } else {
          assert KeyOf(docs[|docs| - 1]) == k;
        }
      }
      forall k | exists d :: d in docs && KeyOf(d) == k ensures k in KeysOf(docs) {
        var d :| d in docs && KeyOf(d) == k;
        if d in init {
          assert k in KeysOf(init);
        }
      }
    }
  }

  lemma {:induction false} ScoresOfAbsent(docs: seq<Doc>, k: Key)
    requires k !in KeysOf(docs)
    ensures ScoresOf(docs, k) == []
  {
    if docs != [] {
      ScoresOfAbsent(docs[..|docs| - 1], k);
    }
  }

  lemma {:induction false} ScoresOfNonEmpty(docs: seq<Doc>, k: Key)
    requires k in KeysOf(docs)
    ensures |ScoresOf(docs, k)| > 0
  {
    var init := docs[..|docs| - 1];
    if k in KeysOf(init) {
      ScoresOfNonEmpty(init, k);
    }
  }

  /** The dictionary holds, in first-appearance order, one entry per key with that key's scores. */
  lemma {:induction false} GroupedMatchesReference(docs: seq<Doc>)
    ensures |Grouped(docs)| == |KeysOf(docs)|
    ensures forall i :: 0 <= i < |Grouped(docs)| ==>
              Grouped(docs)[i] == Entry(KeysOf(docs)[i], ScoresOf(docs, KeysOf(docs)[i]))
  {
    if docs != [] {
      var init := docs[..|docs| - 1];
      var d := docs[|docs| - 1];
      GroupedMatchesReference(init);
      KeysOfDistinct(init);
      var g, ks := Grouped(init), KeysOf(init);
      var j := IndexOfKey(g, KeyOf(d));
      if KeyOf(d) in ks {
        var m :| 0 <= m < |ks| && ks[m] == KeyOf(d);
        assert j <= m;
        assert j == m;
      } else {
        assert j == |g|;
        ScoresOfAbsent(init, KeyOf(d));
      }
    }
  }

  lemma {:induction false} TotalScoresUpdate(groups: seq<Entry>, j: nat, e: Entry)
    requires j < |groups|
    ensures TotalScores(groups[j := e]) + |groups[j].scores| == TotalScores(groups) + |e.scores|
  {
    if j > 0 {
      TotalScoresUpdate(groups[1..], j - 1, e);
      assert groups[j := e][1..] == groups[1..][j - 1 := e];
    }
  }

  lemma {:induction false} TotalScoresAppend(groups: seq<Entry>, e: Entry)
    ensures TotalScores(groups + [e]) == TotalScores(groups) + |e.scores|
  {
    if groups != [] {
      TotalScoresAppend(groups[1..], e);
      assert (groups + [e])[1..] == groups[1..] + [e];
    }
  }

  /** Every retrieved document contributes exactly one score to the groups. */
  lemma {:induction false} GroupedTotal(docs: seq<Doc>)
    ensures TotalScores(Grouped(docs)) == |docs|
  {
    if docs != [] {
      var init := docs[..|docs| - 1];
      var d := docs[|docs| - 1];
      GroupedTotal(init);
      var g := Grouped(init);
      var j := IndexOfKey(g, KeyOf(d));
      if j < |g| {
        TotalScoresUpdate(g, j, Entry(g[j].key, g[j].scores + [d.score]));
      } else {
        TotalScoresAppend(g, Entry(KeyOf(d), [d.score]));
      }
    }
  }

  /** The loop of process_chat that fills `sources_metadata`. */
  method GroupSources(docs: seq<Doc>) returns (groups: seq<Entry>)
    ensures groups == Grouped(docs)
    ensures DistinctKeys(groups)
    ensures GroupKeys(groups) == DocKeys(docs)
    ensures forall i :: 0 <= i < |groups| ==> groups[i].scores == ScoresOf(docs, groups[i].key) && |groups[i].scores| > 0
    ensures TotalScores(groups) == |docs|
  {
    groups := [];
    for n := 0 to |docs|
      invariant groups == Grouped(docs[..n])
    {
      assert docs[..n + 1][..n] == docs[..n];
      var k := KeyOf(docs[n]);
      var j := IndexOfKey(groups, k);
      if j < |groups| {
        groups := groups[j := Entry(k, groups[j].scores + [docs[n].score])];
      } else {
        groups := groups + [Entry(k, [docs[n].score])];
      }
    }
    assert docs[..|docs|] == docs;
    GroupedFacts(docs);
  }

  /** The facts GroupSources promises, about the dictionary the loop builds. */
  lemma GroupedFacts(docs: seq<Doc>)
    ensures DistinctKeys(Grouped(docs))
    ensures GroupKeys(Grouped(docs)) == DocKeys(docs)
    ensures forall i :: 0 <= i < |Grouped(docs)| ==>
              Grouped(docs)[i].scores == ScoresOf(docs, Grouped(docs)[i].key) && |Grouped(docs)[i].scores| > 0
    ensures TotalScores(Grouped(docs)) == |docs|
  {
    GroupedMatchesReference(docs);
    KeysOfDistinct(docs);
    GroupedTotal(docs);
    var g, ks := Grouped(docs), KeysOf(docs);
    forall i | 0 <= i < |g| ensures |g[i].scores| > 0 {
      assert ks[i] in ks;
      ScoresOfNonEmpty(docs, ks[i]);
    }
    forall k | k in DocKeys(docs) ensures k in GroupKeys(g) {
      var d :| d in docs && KeyOf(d) == k;
      assert k in ks;
      var i :| 0 <= i < |ks| && ks[i] == k;
      assert g[i].key == k;
    }
    forall k | k in GroupKeys(g) ensures k in DocKeys(docs) {
      var i :| 0 <= i < |g| && g[i].key == k;
      assert ks[i] in ks;
    }
  }

  // ---------------------------------------------------------------------------------------------
  // Ranking: sorted(sources_metadata.items(), key=lambda v: max(v[1]), reverse=True)

  /** Python's `max` of a non-empty list. */
  function MaxScore(scores: seq<Score>): (m: Score)
    requires |scores| > 0
    ensures m in scores
    ensures forall i :: 0 <= i < |scores| ==> scores[i] <= m
  {
    if |scores| == 1 then scores[0]
    else
      var rest := MaxScore(scores[1..]);
      if scores[0] >= rest then scores[0] else rest
  }

  /** Every group has a score, so that `max` does not raise. */
  predicate AllScored(groups: seq<Entry>) {
    forall i :: 0 <= i < |groups| ==> |groups[i].scores| > 0
  }

  /** The sort key of a group: its best score. */
  function Rank(e: Entry): Score
    requires |e.scores| > 0
  {
    MaxScore(e.scores)
  }

  /** Highest rank first. */
  predicate NonIncreasing(groups: seq<Entry>)
    requires AllScored(groups)
  {
    forall i, j :: 0 <= i < j < |groups| ==> Rank(groups[j]) <= Rank(groups[i])
  }

  /** The groups of rank `v`, in their order in `groups`. */
  function WithRank(groups: seq<Entry>, v: Score): seq<Entry>
    requires AllScored(groups)
  {
    if groups == [] then []
    else (if Rank(groups[0]) == v then [groups[0]] else []) + WithRank(groups[1..], v)
  }

  /** Place `e` before the first group whose rank does not exceed its own. */
  function InsertByRank(e: Entry, sorted: seq<Entry>): (r: seq<Entry>)
    requires |e.scores| > 0 && AllScored(sorted)
    ensures AllScored(r)
    ensures multiset(r) == multiset(sorted) + multiset{e}
  {
    if sorted == [] || Rank(sorted[0]) <= Rank(e) then [e] + sorted
    else
      assert sorted == [sorted[0]] + sorted[1..];
      [sorted[0]] + InsertByRank(e, sorted[1..])
  }

  /** A stable sort of the groups by descending rank (insertion sort). */
  function SortedByRank(groups: seq<Entry>): (r: seq<Entry>)
    requires AllScored(groups)
    ensures AllScored(r)
    ensures multiset(r) == multiset(groups)
  {
    if groups == [] then []
    else
      assert groups == [groups[0]] + groups[1..];
      InsertByRank(groups[0], SortedByRank(groups[1..]))
  }

  lemma {:induction false} InsertKeepsOrder(e: Entry, sorted: seq<Entry>)
    requires |e.scores| > 0 && AllScored(sorted) && NonIncreasing(sorted)
    ensures NonIncreasing(InsertByRank(e, sorted))
  {
    if sorted != [] && Rank(sorted[0]) > Rank(e) {
      var rest := InsertByRank(e, sorted[1..]);
      InsertKeepsOrder(e, sorted[1..]);
      forall x | x in rest ensures Rank(x) <= Rank(sorted[0]) {
        assert x in multiset(rest);
        assert x == e || x in sorted[1..];
      }
    }
  }

  /** The ranked list runs from the highest best score down. */
  lemma {:induction false} SortedByRankNonIncreasing(groups: seq<Entry>)
    requires AllScored(groups)
    ensures NonIncreasing(SortedByRank(groups))
  {
    if groups != [] {
      SortedByRankNonIncreasing(groups[1..]);
      InsertKeepsOrder(groups[0], SortedByRank(groups[1..]));
    }
  }

  lemma WithRankCons(x: Entry, rest: seq<Entry>, v: Score)
    requires |x.scores| > 0 && AllScored(rest)
    ensures AllScored([x] + rest)
    ensures WithRank([x] + rest, v) == (if Rank(x) == v then [x] else []) + WithRank(rest, v)
  {
    assert ([x] + rest)[0] == x && ([x] + rest)[1..] == rest;
  }

  /**
   * The step of InsertWithRank where the head `x` of the sorted list outranks `e`: `x` stays in
   * front, and since at most one of the two has rank `v`, they never trade places among the ties.
   */
  lemma HeadOutranks(x: Entry, e: Entry, tail: seq<Entry>, rest: seq<Entry>, v: Score)
    requires |x.scores| > 0 && |e.scores| > 0 && AllScored(tail) && AllScored(rest)
    requires Rank(x) > Rank(e)
    requires WithRank(rest, v) == (if Rank(e) == v then [e] else []) + WithRank(tail, v)
    ensures AllScored([x] + rest) && AllScored([x] + tail)
    ensures WithRank([x] + rest, v) == (if Rank(e) == v then [e] else []) + WithRank([x] + tail, v)
  {
    WithRankCons(x, rest, v);
    WithRankCons(x, tail, v);
    if Rank(x) == v {
      assert WithRank([x] + rest, v) == [x] + WithRank(tail, v);
    }
  }

  lemma {:induction false} InsertWithRank(e: Entry, sorted: seq<Entry>, v: Score)
    requires |e.scores| > 0 && AllScored(sorted)
    ensures WithRank(InsertByRank(e, sorted), v) == (if Rank(e) == v then [e] else []) + WithRank(sorted, v)
  {
    if sorted == [] || Rank(sorted[0]) <= Rank(e) {
      WithRankCons(e, sorted, v);
    } else {
      var tail := sorted[1..];
      InsertWithRank(e, tail, v);
      assert InsertByRank(e, sorted) == [sorted[0]] + InsertByRank(e, tail);
      assert [sorted[0]] + tail == sorted;
      HeadOutranks(sorted[0], e, tail, InsertByRank(e, tail), v);
    }
  }

  /**
   * Stability: the groups that tie at any rank keep the order they had in the dictionary, that is
   * the order in which their titles were first retrieved.
   */
  lemma {:induction false} SortedByRankStable(groups: seq<Entry>, v: Score)
    requires AllScored(groups)
    ensures WithRank(SortedByRank(groups), v) == WithRank(groups, v)
  {
    if groups != [] {
      SortedByRankStable(groups[1..], v);
      InsertWithRank(groups[0], SortedByRank(groups[1..]), v);
    }
  }

  lemma SortedByRankStableAll(groups: seq<Entry>)
    requires AllScored(groups)
    ensures forall v :: WithRank(SortedByRank(groups), v) == WithRank(groups, v)
  {
    forall v ensures WithRank(SortedByRank(groups), v) == WithRank(groups, v) {
      SortedByRankStable(groups, v);
    }
  }

  /**
   * `sources_metadata_items`: the grouped sources, highest best score first, ties in dictionary
   * order. Together the three postconditions determine the list.
   */
  function SourcesMetadata(docs: seq<Doc>): (r: seq<Entry>)
    ensures AllScored(r)
    ensures multiset(r) == multiset(Grouped(docs))
    ensures NonIncreasing(r)
    ensures AllScored(Grouped(docs)) && forall v :: WithRank(r, v) == WithRank(Grouped(docs), v)
  {
    GroupedFacts(docs);
    SortedByRankNonIncreasing(Grouped(docs));
    SortedByRankStableAll(Grouped(docs));
    SortedByRank(Grouped(docs))
  }
}
