/** Where each attempt of an assessment stands among the scored ones. */
module Ranking {
  import opened Wrappers

  type SessionId = string

  datatype Row = Row(sessionId: SessionId, overallScore: Option<real>)

  datatype Ranked = Ranked(row: Row, rank: Option<nat>, cohortSize: nat)

  datatype Entry = Entry(sessionId: SessionId, score: real)

  /** Session ids are primary keys, so no two rows share one. */
  ghost predicate UniqueRows(rows: seq<Row>) {
    forall i, j :: 0 <= i < j < |rows| ==> rows[i].sessionId != rows[j].sessionId
  }

  ghost predicate UniqueEntries(entries: seq<Entry>) {
    forall i, j :: 0 <= i < j < |entries| ==> entries[i].sessionId != entries[j].sessionId
  }

  ghost predicate Descending(entries: seq<Entry>) {
    forall i, j :: 0 <= i < j < |entries| ==> entries[i].score >= entries[j].score
  }

  // ── Competition rank, defined without sorting ────────────────────────────

  /** How many rows have a score strictly above this one. */
  function Above(rows: seq<Row>, score: real): nat {
    if rows == [] then 0
    else
      var last := rows[|rows| - 1].overallScore;
      Above(rows[..|rows| - 1], score) + (if last.Some? && last.value > score then 1 else 0)
  }

  function ScoredCount(rows: seq<Row>): nat {
    if rows == [] then 0
    else ScoredCount(rows[..|rows| - 1]) + (if rows[|rows| - 1].overallScore.Some? then 1 else 0)
  }

  // ── The sort and the scan ────────────────────────────────────────────────

  function Scored(rows: seq<Row>): seq<Entry> {
    if rows == [] then []
    else
      var last := rows[|rows| - 1];
      Scored(rows[..|rows| - 1]) +
      (if last.overallScore.Some? then [Entry(last.sessionId, last.overallScore.value)] else [])
  }

  function EntriesAbove(entries: seq<Entry>, score: real): nat {
    if entries == [] then 0
    else EntriesAbove(entries[..|entries| - 1], score) + (if entries[|entries| - 1].score > score then 1 else 0)
  }

  /** Insertion keeping equal scores in arrival order, as a stable sort does. */
  function Insert(sorted: seq<Entry>, e: Entry): seq<Entry> {
    if sorted == [] then [e]
    else
      var last := sorted[|sorted| - 1];
      if last.score >= e.score then sorted + [e] else Insert(sorted[..|sorted| - 1], e) + [last]
  }

  /** What sorting by descending score returns. */
  function SortDescending(entries: seq<Entry>): seq<Entry> {
    if entries == [] then []
    else Insert(SortDescending(entries[..|entries| - 1]), entries[|entries| - 1])
  }

  lemma {:induction false} InsertKeeps(sorted: seq<Entry>, e: Entry)
    ensures multiset(Insert(sorted, e)) == multiset(sorted) + multiset{e}
  {
    if sorted != [] {
      InsertKeeps(sorted[..|sorted| - 1], e);
      assert sorted == sorted[..|sorted| - 1] + [sorted[|sorted| - 1]];
    }
  }

  lemma {:induction false} InsertAtLeast(sorted: seq<Entry>, e: Entry, s: real)
    requires e.score >= s && forall i :: 0 <= i < |sorted| ==> sorted[i].score >= s
    ensures forall i :: 0 <= i < |Insert(sorted, e)| ==> Insert(sorted, e)[i].score >= s
  {
    if sorted != [] {
      InsertAtLeast(sorted[..|sorted| - 1], e, s);
    }
  }

  lemma {:induction false} InsertDescends(sorted: seq<Entry>, e: Entry)
    requires Descending(sorted)
    ensures Descending(Insert(sorted, e))
  {
    if sorted != [] {
      InsertDescends(sorted[..|sorted| - 1], e);
      if sorted[|sorted| - 1].score < e.score {
        InsertAtLeast(sorted[..|sorted| - 1], e, sorted[|sorted| - 1].score);
      }
    }
  }

  lemma {:induction false} NothingDescends()
    ensures Descending([])
  {
  }

  lemma {:induction false} SortedFacts(entries: seq<Entry>)
    ensures multiset(SortDescending(entries)) == multiset(entries)
    ensures Descending(SortDescending(entries))
    ensures |SortDescending(entries)| == |entries|
  {
    hide Descending;
    if entries == [] {
      NothingDescends();
    } else {
      var front, last := entries[..|entries| - 1], entries[|entries| - 1];
      SortedFacts(front);
      InsertKeeps(SortDescending(front), last);
      InsertDescends(SortDescending(front), last);
      assert entries == front + [last];
    }
    assert |multiset(SortDescending(entries))| == |multiset(entries)|;
  }

  /** The ranks filled in after scanning the first n entries. */
  function Ranks(scored: seq<Entry>, n: nat): map<SessionId, nat>
    requires n <= |scored|
  {
    if n == 0 then map[]
    else
      var ranks, e := Ranks(scored, n - 1), scored[n - 1];
      var tied := n >= 2 && scored[n - 2].score == e.score;
      ranks[e.sessionId := if tied && scored[n - 2].sessionId in ranks then ranks[scored[n - 2].sessionId] else n]
  }

  function Get(ranks: map<SessionId, nat>, id: SessionId): Option<nat> {
    if id in ranks then Some(ranks[id]) else None
  }

  function Standings(rows: seq<Row>): seq<Ranked> {
    var scored := SortDescending(Scored(rows));
    var ranks := Ranks(scored, |scored|);
    seq(|rows|, i requires 0 <= i < |rows| => Ranked(rows[i], Get(ranks, rows[i].sessionId), |scored|))
  }

  method RankByScore(rows: seq<Row>) returns (items: seq<Ranked>)
    ensures items == Standings(rows)
  {
    var scored := SortDescending(Scored(rows));
    var ranks: map<SessionId, nat> := map[];
    for index := 0 to |scored|
      invariant ranks == Ranks(scored, index)
    {
      var entry := scored[index];
      var tied := index > 0 && scored[index - 1].score == entry.score;
      var rank := index + 1;
      if tied && scored[index - 1].sessionId in ranks {
        rank := ranks[scored[index - 1].sessionId];
      }
      ranks := ranks[entry.sessionId := rank];
    }
    items := seq(|rows|, i requires 0 <= i < |rows| =>
      Ranked(rows[i], Get(ranks, rows[i].sessionId), |scored|));
  }

  // ── The scan on any descending list ──────────────────────────────────────

  /** In a descending list, everything before the first entry of a score is above it and nothing after is. */
  lemma {:induction false} FirstOfScore(scored: seq<Entry>, k: nat, j: nat)
    requires Descending(scored) && k < |scored| && j <= |scored|
    requires k == 0 || scored[k - 1].score > scored[k].score
    ensures EntriesAbove(scored[..j], scored[k].score) == if j < k then j else k
  {
    if j > 0 {
      FirstOfScore(scored, k, j - 1);
      assert scored[..j][..j - 1] == scored[..j - 1];
    }
  }

  lemma {:induction false} EarlierRankKept(scored: seq<Entry>, n: nat, k: nat)
    requires UniqueEntries(scored) && k < n < |scored|
    ensures Get(Ranks(scored, n + 1), scored[k].sessionId) == Get(Ranks(scored, n), scored[k].sessionId)
  {
  }

  lemma {:induction false} LatestRank(scored: seq<Entry>, n: nat)
    requires n < |scored|
    ensures var tied := n > 0 && scored[n - 1].score == scored[n].score;
      Get(Ranks(scored, n + 1), scored[n].sessionId)
      == if tied && Get(Ranks(scored, n), scored[n - 1].sessionId).Some?
         then Get(Ranks(scored, n), scored[n - 1].sessionId) else Some(n + 1)
  {
  }

  /** The scan gives each entry one more than the number of entries above it, whatever order ties were left in. */
  lemma {:induction false} ScanRanks(scored: seq<Entry>, n: nat, k: nat)
    requires Descending(scored) && UniqueEntries(scored) && k < n <= |scored|
    ensures Get(Ranks(scored, n), scored[k].sessionId) == Some(1 + EntriesAbove(scored, scored[k].score))
  {
    hide Ranks, Get, EntriesAbove, UniqueEntries;
    if k < n - 1 {
      ScanRanks(scored, n - 1, k);
      EarlierRankKept(scored, n - 1, k);
    } else {
      LatestRank(scored, k);
      if k > 0 && scored[k - 1].score == scored[k].score {
        ScanRanks(scored, n - 1, k - 1);
      } else {
        FirstOfScore(scored, k, |scored|);
        assert scored[..|scored|] == scored;
      }
    }
  }

  lemma {:induction false} OnlyScannedRanked(scored: seq<Entry>, n: nat, id: SessionId)
    requires n <= |scored| && id in Ranks(scored, n)
    ensures exists k :: 0 <= k < n && scored[k].sessionId == id
  {
    if scored[n - 1].sessionId != id {
      OnlyScannedRanked(scored, n - 1, id);
    }
  }

  // ── Permutations ─────────────────────────────────────────────────────────

  lemma {:induction false} AboveConcat(a: seq<Entry>, b: seq<Entry>, score: real)
    ensures EntriesAbove(a + b, score) == EntriesAbove(a, score) + EntriesAbove(b, score)
  {
    if b == [] {
      assert a + b == a;
    } else {
      AboveConcat(a, b[..|b| - 1], score);
      assert (a + b)[..|a + b| - 1] == a + b[..|b| - 1];
    }
  }

  lemma {:induction false} Without<T>(b: seq<T>, j: nat)
    requires j < |b|
    ensures multiset(b) == multiset(b[..j] + b[j + 1..]) + multiset{b[j]}
  {
    assert b == b[..j] + ([b[j]] + b[j + 1..]);
  }

  lemma {:induction false} CancelOne<T>(m: multiset<T>, n: multiset<T>, x: T)
    requires m + multiset{x} == n + multiset{x}
    ensures m == n
  {
    assert m == (m + multiset{x}) - multiset{x};
    assert n == (n + multiset{x}) - multiset{x};
  }

  lemma {:induction false} Find<T>(b: seq<T>, x: T) returns (j: nat)
    requires x in multiset(b)
    ensures j < |b| && b[j] == x
  {
    j :| 0 <= j < |b| && b[j] == x;
  }

  /** Taking the last of one list out of another with the same entries. */
  lemma {:induction false} TakeOut<T>(a: seq<T>, b: seq<T>) returns (j: nat)
    requires multiset(a) == multiset(b) && a != []
    ensures j < |b| && b[j] == a[|a| - 1]
    ensures multiset(a[..|a| - 1]) == multiset(b[..j] + b[j + 1..])
  {
    var front, x := a[..|a| - 1], a[|a| - 1];
    assert a == front + [x];
    j := Find(b, x);
    Without(b, j);
    CancelOne(multiset(front), multiset(b[..j] + b[j + 1..]), x);
  }

  lemma {:induction false} AboveWithout(b: seq<Entry>, j: nat, score: real)
    requires j < |b|
    ensures EntriesAbove(b, score)
            == EntriesAbove(b[..j] + b[j + 1..], score) + (if b[j].score > score then 1 else 0)
  {
    hide EntriesAbove;
    assert b == b[..j] + [b[j]] + b[j + 1..];
    AboveConcat(b[..j], [b[j]], score);
    AboveConcat(b[..j] + [b[j]], b[j + 1..], score);
    AboveConcat(b[..j], b[j + 1..], score);
    AboveOne(b[j], score);
  }

  lemma {:induction false} AboveOne(e: Entry, score: real)
    ensures EntriesAbove([e], score) == if e.score > score then 1 else 0
    ensures EntriesAbove([], score) == 0
  {
    assert [e][..0] == [];
  }

  /** The number above a score depends on which entries there are, not on their order. */
  lemma {:induction false} AbovePermutation(a: seq<Entry>, b: seq<Entry>, score: real)
    requires multiset(a) == multiset(b)
    ensures EntriesAbove(a, score) == EntriesAbove(b, score)
    decreases |a|
  {
    hide EntriesAbove;
    if a == [] {
      assert |b| == |multiset(b)| == |multiset(a)| == 0;
    } else {
      var j := TakeOut(a, b);
      AbovePermutation(a[..|a| - 1], b[..j] + b[j + 1..], score);
      AboveWithout(a, |a| - 1, score);
      AboveWithout(b, j, score);
      assert a[..|a| - 1] + a[|a|..] == a[..|a| - 1];
    }
  }

  lemma {:induction false} CountedOnce(a: seq<Entry>, p: nat)
    requires UniqueEntries(a) && p < |a|
    ensures multiset(a)[a[p]] == 1
  {
    assert a == a[..p] + [a[p]] + a[p + 1..];
    assert a[p] !in a[..p] && a[p] !in a[p + 1..];
  }

  lemma {:induction false} CountedTwice(b: seq<Entry>, i: nat, j: nat)
    requires i < j < |b| && b[i] == b[j]
    ensures multiset(b)[b[i]] >= 2
  {
    assert b == b[..j] + b[j..];
    assert b[..j][i] in multiset(b[..j]) && b[j..][0] in multiset(b[j..]);
  }

  lemma {:induction false} UniquePermutation(a: seq<Entry>, b: seq<Entry>)
    requires multiset(a) == multiset(b) && UniqueEntries(a)
    ensures UniqueEntries(b)
  {
    forall i, j | 0 <= i < j < |b| ensures b[i].sessionId != b[j].sessionId {
      assert b[i] in multiset(a) && b[j] in multiset(a);
      var p :| 0 <= p < |a| && a[p] == b[i];
      var q :| 0 <= q < |a| && a[q] == b[j];
      CountedOnce(a, p);
      if b[i] == b[j] {
        CountedTwice(b, i, j);
      }
    }
  }

  // ── From entries back to rows ────────────────────────────────────────────

  lemma {:induction false} ScoredNext(front: seq<Row>, last: Row)
    ensures Scored(front + [last])
            == Scored(front) + (if last.overallScore.Some? then [Entry(last.sessionId, last.overallScore.value)] else [])
    ensures ScoredCount(front + [last]) == ScoredCount(front) + (if last.overallScore.Some? then 1 else 0)
  {
    assert (front + [last])[..|front|] == front;
  }

  lemma {:induction false} ScoredMembers(rows: seq<Row>, e: Entry)
    ensures e in Scored(rows) <==> Row(e.sessionId, Some(e.score)) in rows
  {
    hide Scored;
    if rows == [] {
      NothingScored();
    } else {
      var front, last := rows[..|rows| - 1], rows[|rows| - 1];
      assert rows == front + [last];
      ScoredMembers(front, e);
      ScoredNext(front, last);
    }
  }

  lemma {:induction false} NothingScored()
    ensures Scored([]) == [] && ScoredCount([]) == 0
  {
  }

  lemma {:induction false} ScoredUnique(rows: seq<Row>)
    requires UniqueRows(rows)
    ensures UniqueEntries(Scored(rows)) && |Scored(rows)| == ScoredCount(rows)
  {
    hide Scored, ScoredCount;
    if rows == [] {
      NothingScored();
    } else {
      var front, last := rows[..|rows| - 1], rows[|rows| - 1];
      assert rows == front + [last];
      ScoredUnique(front);
      ScoredNext(front, last);
      forall i | 0 <= i < |Scored(front)| ensures Scored(front)[i].sessionId != last.sessionId {
        var e := Scored(front)[i];
        ScoredMembers(front, e);
        var j :| 0 <= j < |front| && front[j] == Row(e.sessionId, Some(e.score));
      }
    }
  }

  lemma {:induction false} ScoredFacts(rows: seq<Row>)
    requires UniqueRows(rows)
    ensures |Scored(rows)| == ScoredCount(rows)
    ensures UniqueEntries(Scored(rows))
    ensures forall e :: e in Scored(rows) <==> Row(e.sessionId, Some(e.score)) in rows
  {
    hide Scored, ScoredCount, UniqueRows, UniqueEntries;
    ScoredUnique(rows);
    forall e ensures e in Scored(rows) <==> Row(e.sessionId, Some(e.score)) in rows {
      ScoredMembers(rows, e);
    }
  }

  lemma {:induction false} AboveScored(rows: seq<Row>, score: real)
    ensures EntriesAbove(Scored(rows), score) == Above(rows, score)
  {
    if rows != [] {
      AboveScored(rows[..|rows| - 1], score);
      if rows[|rows| - 1].overallScore.None? {
        assert Scored(rows) == Scored(rows[..|rows| - 1]);
      } else {
        assert Scored(rows)[..|Scored(rows)| - 1] == Scored(rows[..|rows| - 1]);
      }
    }
  }

  lemma {:induction false} AboveLeavesOne(entries: seq<Entry>, k: nat)
    requires k < |entries|
    ensures EntriesAbove(entries, entries[k].score) < |entries|
  {
    AboveConcat(entries[..k], entries[k..], entries[k].score);
    AboveConcat([entries[k]], entries[k + 1..], entries[k].score);
    assert entries == entries[..k] + entries[k..] && entries[k..] == [entries[k]] + entries[k + 1..];
    assert [entries[k]][..0] == [];
    AboveAtMost(entries[..k], entries[k].score);
    AboveAtMost(entries[k + 1..], entries[k].score);
  }

  lemma {:induction false} AboveAtMost(entries: seq<Entry>, score: real)
    ensures EntriesAbove(entries, score) <= |entries|
  {
    if entries != [] {
      AboveAtMost(entries[..|entries| - 1], score);
    }
  }

  /**
   * Every scored row is ranked one more than the number of rows with a strictly greater score, at most the cohort
   * size; unscored rows have no rank; the cohort is the scored rows.
   */
  lemma {:induction false} RankIsOnePlusAbove(rows: seq<Row>, i: nat)
    requires UniqueRows(rows) && i < |rows|
    ensures var item := Standings(rows)[i];
      && item.row == rows[i] && item.cohortSize == ScoredCount(rows)
      && (rows[i].overallScore.None? ==> item.rank.None?)
      && (rows[i].overallScore.Some? ==>
          item.rank == Some(1 + Above(rows, rows[i].overallScore.value)) && item.rank.value <= item.cohortSize)
  {
    hide Scored, SortDescending, Ranks, EntriesAbove, Above, ScoredCount;
    var entries, scored := Scored(rows), SortDescending(Scored(rows));
    ScoredFacts(rows);
    SortedFacts(entries);
    UniquePermutation(entries, scored);
    if rows[i].overallScore.Some? {
      var e := Entry(rows[i].sessionId, rows[i].overallScore.value);
      assert e in multiset(scored);
      var k :| 0 <= k < |scored| && scored[k] == e;
      ScanRanks(scored, |scored|, k);
      AbovePermutation(entries, scored, e.score);
      AboveScored(rows, e.score);
      AboveLeavesOne(scored, k);
    } else {
      UnscoredUnranked(rows, scored, i);
    }
  }

  lemma {:induction false} UnscoredUnranked(rows: seq<Row>, scored: seq<Entry>, i: nat)
    requires UniqueRows(rows) && i < |rows| && rows[i].overallScore.None?
    requires multiset(scored) == multiset(Scored(rows))
    ensures rows[i].sessionId !in Ranks(scored, |scored|)
  {
    hide Scored, Ranks;
    ScoredFacts(rows);
    forall k | 0 <= k < |scored| ensures scored[k].sessionId != rows[i].sessionId {
      assert scored[k] in multiset(Scored(rows));
      var j :| 0 <= j < |rows| && rows[j] == Row(scored[k].sessionId, Some(scored[k].score));
    }
    if rows[i].sessionId in Ranks(scored, |scored|) {
      OnlyScannedRanked(scored, |scored|, rows[i].sessionId);
    }
  }

  lemma {:induction false} ScoredWithout(b: seq<Row>, j: nat)
    requires j < |b|
    ensures multiset(Scored(b)) == multiset(Scored(b[..j] + b[j + 1..])) + multiset(Scored([b[j]]))
  {
    hide Scored;
    assert b == b[..j] + [b[j]] + b[j + 1..];
    ScoredConcat(b[..j], [b[j]]);
    ScoredConcat(b[..j] + [b[j]], b[j + 1..]);
    ScoredConcat(b[..j], b[j + 1..]);
  }

  lemma {:induction false} UnorderedRows(a: seq<Row>, b: seq<Row>)
    requires multiset(a) == multiset(b)
    ensures multiset(Scored(a)) == multiset(Scored(b))
    decreases |a|
  {
    hide Scored;
    if a == [] {
      assert |b| == |multiset(b)| == |multiset(a)| == 0;
      assert a == b;
    } else {
      var j := TakeOut(a, b);
      UnorderedRows(a[..|a| - 1], b[..j] + b[j + 1..]);
      ScoredWithout(a, |a| - 1);
      ScoredWithout(b, j);
      assert a[..|a| - 1] + a[|a|..] == a[..|a| - 1];
    }
  }

  lemma {:induction false} ScoredConcat(a: seq<Row>, b: seq<Row>)
    ensures Scored(a + b) == Scored(a) + Scored(b)
  {
    if b == [] {
      assert a + b == a;
    } else {
      ScoredConcat(a, b[..|b| - 1]);
      assert (a + b)[..|a + b| - 1] == a + b[..|b| - 1];
    }
  }

  /** The same rows in any other order get the same ranks. */
  lemma {:induction false} OrderDoesNotMatter(a: seq<Row>, b: seq<Row>, i: nat, j: nat)
    requires UniqueRows(a) && UniqueRows(b) && multiset(a) == multiset(b)
    requires i < |a| && j < |b| && a[i] == b[j]
    ensures Standings(a)[i] == Standings(b)[j]
  {
    hide Scored, Standings, EntriesAbove, Above, ScoredCount;
    RankIsOnePlusAbove(a, i);
    RankIsOnePlusAbove(b, j);
    UnorderedRows(a, b);
    ScoredFacts(a);
    ScoredFacts(b);
    assert |Scored(a)| == |multiset(Scored(a))| == |multiset(Scored(b))| == |Scored(b)|;
    if a[i].overallScore.Some? {
      AbovePermutation(Scored(a), Scored(b), a[i].overallScore.value);
      AboveScored(a, a[i].overallScore.value);
      AboveScored(b, a[i].overallScore.value);
    }
  }
}
