/** Choosing practice questions: group the rows by subject, then go round the subjects until there are enough. */
module Practice {
  const PRACTICE_TARGET: nat := 3

  type ModuleId = string

  datatype Question = Question(id: string, moduleId: ModuleId)

  // ── Grouping ─────────────────────────────────────────────────────────────

  /** The questions of one subject, in the order given. */
  function Of(rows: seq<Question>, m: ModuleId): seq<Question> {
    if rows == [] then []
    else Of(rows[..|rows| - 1], m) + (if rows[|rows| - 1].moduleId == m then [rows[|rows| - 1]] else [])
  }

  /** The subjects in order of first appearance. */
  function Subjects(rows: seq<Question>): seq<ModuleId> {
    if rows == [] then []
    else
      var before := Subjects(rows[..|rows| - 1]);
      before + (if rows[|rows| - 1].moduleId in before then [] else [rows[|rows| - 1].moduleId])
  }

  function Queues(rows: seq<Question>): seq<seq<Question>> {
    seq(|Subjects(rows)|, i requires 0 <= i < |Subjects(rows)| => Of(rows, Subjects(rows)[i]))
  }

  /** The queues hold one subject each, no subject twice. */
  ghost predicate Grouped(queues: seq<seq<Question>>, subjects: seq<ModuleId>) {
    && |queues| == |subjects|
    && (forall i, j :: 0 <= i < j < |subjects| ==> subjects[i] != subjects[j])
    && (forall i, k :: 0 <= i < |queues| && 0 <= k < |queues[i]| ==> queues[i][k].moduleId == subjects[i])
  }

  lemma {:induction false} OfNone(m: ModuleId)
    ensures Of([], m) == []
  {
  }

  lemma {:induction false} OfNext(rows: seq<Question>, q: Question, m: ModuleId)
    ensures Of(rows + [q], m) == Of(rows, m) + (if q.moduleId == m then [q] else [])
  {
    assert (rows + [q])[..|rows|] == rows;
  }

  lemma {:induction false} OfConcat(a: seq<Question>, b: seq<Question>, m: ModuleId)
    ensures Of(a + b, m) == Of(a, m) + Of(b, m)
  {
    hide Of;
    OfNone(m);
    if b == [] {
      assert a + b == a;
    } else {
      var init, last := b[..|b| - 1], b[|b| - 1];
      OfConcat(a, init, m);
      OfNext(init, last, m);
      OfNext(a + init, last, m);
      assert a + b == a + init + [last] && b == init + [last];
    }
  }

  lemma {:induction false} OfFacts(rows: seq<Question>, m: ModuleId)
    ensures |Of(rows, m)| <= |rows|
    ensures forall k :: 0 <= k < |Of(rows, m)| ==> Of(rows, m)[k].moduleId == m
    ensures m in Subjects(rows) <==> Of(rows, m) != []
  {
    if rows != [] {
      OfFacts(rows[..|rows| - 1], m);
    }
  }

  lemma {:induction false} SubjectsDistinct(rows: seq<Question>)
    ensures forall i, j :: 0 <= i < j < |Subjects(rows)| ==> Subjects(rows)[i] != Subjects(rows)[j]
  {
    if rows != [] {
      SubjectsDistinct(rows[..|rows| - 1]);
    }
  }

  lemma {:induction false} QueuesGrouped(rows: seq<Question>)
    ensures Grouped(Queues(rows), Subjects(rows))
    ensures forall i :: 0 <= i < |Queues(rows)| ==> Queues(rows)[i] != []
  {
    SubjectsDistinct(rows);
    forall m ensures forall k :: 0 <= k < |Of(rows, m)| ==> Of(rows, m)[k].moduleId == m {
      OfFacts(rows, m);
    }
    forall i | 0 <= i < |Queues(rows)| ensures Queues(rows)[i] != [] {
      OfFacts(rows, Subjects(rows)[i]);
    }
  }

  lemma {:induction false} NoSubjects()
    ensures Subjects([]) == []
  {
  }

  lemma {:induction false} SubjectsNext(rows: seq<Question>, q: Question)
    ensures Subjects(rows + [q])
            == Subjects(rows) + (if q.moduleId in Subjects(rows) then [] else [q.moduleId])
  {
    assert (rows + [q])[..|rows|] == rows;
  }

  method Group(rows: seq<Question>) returns (queues: seq<seq<Question>>)
    ensures queues == Queues(rows)
  {
    hide Of, Subjects;
    var byModule: map<ModuleId, seq<Question>> := map[];
    var order: seq<ModuleId> := [];
    NoSubjects();
    assert rows[..0] == [];
    for n := 0 to |rows|
      invariant order == Subjects(rows[..n])
      invariant forall m :: m in byModule <==> m in order
      invariant forall m :: m in byModule ==> byModule[m] == Of(rows[..n], m)
    {
      var question := rows[n];
      assert rows[..n + 1] == rows[..n] + [question];
      OfFacts(rows[..n], question.moduleId);
      SubjectsNext(rows[..n], question);
      forall m
        ensures Of(rows[..n + 1], m) == Of(rows[..n], m) + (if question.moduleId == m then [question] else [])
      {
        OfNext(rows[..n], question, m);
      }
      if question.moduleId in byModule {
        byModule := byModule[question.moduleId := byModule[question.moduleId] + [question]];
      } else {
        order := order + [question.moduleId];
        byModule := byModule[question.moduleId := [question]];
      }
    }
    assert rows[..|rows|] == rows;
    queues := seq(|order|, i requires 0 <= i < |order| => byModule[order[i]]);
  }

  // ── The tour of the subjects ─────────────────────────────────────────────

  /** Round r of the tour: the r-th question of each of the first n subjects that has one. */
  function Round(queues: seq<seq<Question>>, r: nat, n: nat): seq<Question>
    requires n <= |queues|
  {
    if n == 0 then []
    else Round(queues, r, n - 1) + (if r < |queues[n - 1]| then [queues[n - 1][r]] else [])
  }

  /** The first r whole rounds. */
  function Tour(queues: seq<seq<Question>>, r: nat): seq<Question> {
    if r == 0 then [] else Tour(queues, r - 1) + Round(queues, r - 1, |queues|)
  }

  /** How many rounds it takes to visit everything in the first n queues. */
  function Depth(queues: seq<seq<Question>>, n: nat): (d: nat)
    requires n <= |queues|
    ensures forall i :: 0 <= i < n ==> |queues[i]| <= d
    ensures d == 0 || exists i :: 0 <= i < n && |queues[i]| == d
  {
    if n == 0 then 0
    else
      var d := Depth(queues, n - 1);
      if |queues[n - 1]| > d then |queues[n - 1]| else d
  }

  function FullTour(queues: seq<seq<Question>>): seq<Question> { Tour(queues, Depth(queues, |queues|)) }

  function Min(a: nat, b: nat): nat { if a < b then a else b }

  /** How many a subject has had after r rounds and the first n subjects of the next. */
  function Had(queues: seq<seq<Question>>, r: nat, n: nat, i: nat): (c: nat)
    requires i < |queues|
    ensures c <= |queues[i]|
  {
    Min(|queues[i]|, if i < n then r + 1 else r)
  }

  lemma {:induction false} RoundNext(queues: seq<seq<Question>>, r: nat, n: nat)
    requires n < |queues|
    ensures Round(queues, r, 0) == []
    ensures Round(queues, r, n + 1)
            == if r < |queues[n]| then Round(queues, r, n) + [queues[n][r]] else Round(queues, r, n)
  {
  }

  /** The r-th question of queue n is one of subject i exactly when n is i. */
  lemma {:induction false} GroupedBy(queues: seq<seq<Question>>, subjects: seq<ModuleId>, r: nat, n: nat, i: nat)
    requires Grouped(queues, subjects) && n < |queues| && i < |queues| && r < |queues[n]|
    ensures |subjects| == |queues| && (queues[n][r].moduleId == subjects[i] <==> n == i)
  {
    assert queues[n][r].moduleId == subjects[n];
  }

  /** A round gives each subject visited its r-th question, and no other. */
  lemma {:induction false} RoundOf(queues: seq<seq<Question>>, subjects: seq<ModuleId>, r: nat, n: nat, i: nat)
    requires Grouped(queues, subjects) && n <= |queues| && i < |queues| == |subjects|
    ensures Of(Round(queues, r, n), subjects[i]) == if i < n && r < |queues[i]| then [queues[i][r]] else []
  {
    hide Of, Round, Grouped;
    OfNone(subjects[i]);
    RoundNext(queues, r, if n > 0 then n - 1 else 0);
    if n > 0 {
      RoundOf(queues, subjects, r, n - 1, i);
      if r < |queues[n - 1]| {
        GroupedBy(queues, subjects, r, n - 1, i);
        OfNext(Round(queues, r, n - 1), queues[n - 1][r], subjects[i]);
      }
    }
  }

  /** However far the tour has got, each subject has had a prefix of its own questions, in their order. */
  lemma {:induction false} TourOf(queues: seq<seq<Question>>, subjects: seq<ModuleId>, r: nat, n: nat, i: nat)
    requires Grouped(queues, subjects) && n <= |queues| && i < |queues|
    ensures Of(Tour(queues, r) + Round(queues, r, n), subjects[i]) == queues[i][..Had(queues, r, n, i)]
    decreases r
  {
    hide Of, Round;
    OfConcat(Tour(queues, r), Round(queues, r, n), subjects[i]);
    RoundOf(queues, subjects, r, n, i);
    if r > 0 {
      TourOf(queues, subjects, r - 1, |queues|, i);
    } else {
      OfNone(subjects[i]);
    }
  }

  lemma {:induction false} RoundPrefix(queues: seq<seq<Question>>, r: nat, n: nat, m: nat)
    requires n <= m <= |queues|
    ensures Round(queues, r, n) <= Round(queues, r, m)
  {
    if n < m {
      RoundPrefix(queues, r, n, m - 1);
    }
  }

  lemma {:induction false} RoundEndsTour(queues: seq<seq<Question>>, r: nat, n: nat)
    requires n <= |queues|
    ensures Tour(queues, r) + Round(queues, r, n) <= Tour(queues, r + 1)
  {
    hide Round;
    RoundPrefix(queues, r, n, |queues|);
  }

  lemma {:induction false} TourPrefix(queues: seq<seq<Question>>, r: nat, n: nat, s: nat)
    requires n <= |queues| && (r < s || (r == s && n == 0))
    ensures Tour(queues, r) + Round(queues, r, n) <= Tour(queues, s)
  {
    if r == s {
      assert Round(queues, r, n) == [];
    } else {
      TourReaches(queues, r, n, s);
    }
  }

  lemma {:induction false} TourReaches(queues: seq<seq<Question>>, r: nat, n: nat, s: nat)
    requires n <= |queues| && r < s
    ensures Tour(queues, r) + Round(queues, r, n) <= Tour(queues, s)
  {
    hide Round;
    if r == s - 1 {
      RoundEndsTour(queues, r, n);
    } else {
      TourReaches(queues, r, n, s - 1);
    }
  }

  /** Any number of picks up to a whole tour stops after some whole rounds and part of the next. */
  lemma {:induction false} WhereItStops(queues: seq<seq<Question>>, s: nat, k: nat) returns (r: nat, n: nat)
    requires k <= |Tour(queues, s)|
    ensures r <= s && n <= |queues|
    ensures Tour(queues, s)[..k] == Tour(queues, r) + Round(queues, r, n)
  {
    if s == 0 {
      r, n := 0, 0;
    } else if k <= |Tour(queues, s - 1)| {
      r, n := WhereItStops(queues, s - 1, k);
      assert Tour(queues, s)[..k] == Tour(queues, s - 1)[..k];
    } else {
      r := s - 1;
      var part := k - |Tour(queues, r)|;
      n := |queues|;
      while |Round(queues, r, n)| > part
        invariant n <= |queues| && part <= |Round(queues, r, n)|
        decreases n
      {
        n := n - 1;
      }
      RoundPrefix(queues, r, n, |queues|);
      assert Round(queues, r, |queues|)[..part] == Round(queues, r, n);
    }
  }

  lemma {:induction false} SameSubjectsSameRows(a: seq<Question>, b: seq<Question>)
    requires forall m :: Of(a, m) == Of(b, m)
    ensures multiset(a) == multiset(b)
  {
    forall x: Question ensures multiset(a)[x] == multiset(b)[x] {
      OfCounts(a, x);
      OfCounts(b, x);
    }
  }

  lemma {:induction false} OfCounts(a: seq<Question>, x: Question)
    ensures multiset(Of(a, x.moduleId))[x] == multiset(a)[x]
  {
    if a != [] {
      var before := a[..|a| - 1];
      OfCounts(before, x);
      assert a == before + [a[|a| - 1]];
    }
  }

  /** The whole tour visits every row exactly once. */
  lemma {:induction false} TourVisitsAll(rows: seq<Question>)
    ensures multiset(FullTour(Queues(rows))) == multiset(rows) && |FullTour(Queues(rows))| == |rows|
  {
    var queues, d := Queues(rows), Depth(Queues(rows), |Queues(rows)|);
    QueuesGrouped(rows);
    forall m ensures Of(FullTour(queues), m) == Of(rows, m) {
      if m in Subjects(rows) {
        var i :| 0 <= i < |Subjects(rows)| && Subjects(rows)[i] == m;
        TourOf(queues, Subjects(rows), d, 0, i);
        assert FullTour(queues) == Tour(queues, d) + Round(queues, d, 0);
      } else {
        OfFacts(rows, m);
        TourStaysIn(queues, Subjects(rows), d, m);
      }
    }
    SameSubjectsSameRows(FullTour(queues), rows);
    assert |multiset(FullTour(queues))| == |multiset(rows)|;
  }

  lemma {:induction false} RoundStaysIn(queues: seq<seq<Question>>, subjects: seq<ModuleId>, r: nat, n: nat, m: ModuleId)
    requires Grouped(queues, subjects) && n <= |queues| && m !in subjects
    ensures Of(Round(queues, r, n), m) == []
  {
    hide Of;
    OfNone(m);
    if n > 0 {
      RoundStaysIn(queues, subjects, r, n - 1, m);
      if r < |queues[n - 1]| {
        assert queues[n - 1][r].moduleId == subjects[n - 1];
        OfNext(Round(queues, r, n - 1), queues[n - 1][r], m);
      } else {
        assert Round(queues, r, n) == Round(queues, r, n - 1);
      }
    }
  }

  lemma {:induction false} TourStaysIn(queues: seq<seq<Question>>, subjects: seq<ModuleId>, r: nat, m: ModuleId)
    requires Grouped(queues, subjects) && m !in subjects
    ensures Of(Tour(queues, r), m) == []
  {
    hide Of, Round;
    OfNone(m);
    if r > 0 {
      TourStaysIn(queues, subjects, r - 1, m);
      RoundStaysIn(queues, subjects, r - 1, |queues|, m);
      OfConcat(Tour(queues, r - 1), Round(queues, r - 1, |queues|), m);
    }
  }

  // ── The round-robin loop ─────────────────────────────────────────────────

  function Picks(rows: seq<Question>, target: nat): seq<Question> {
    FullTour(Queues(rows))[..Min(target, |FullTour(Queues(rows))|)]
  }

  /** The queues left when each has been shifted as often as it was visited. */
  ghost predicate Shifted(all: seq<seq<Question>>, queues: seq<seq<Question>>, r: nat, n: nat) {
    && |queues| == |all|
    && forall i :: 0 <= i < |all| ==> queues[i] == all[i][Had(all, r, n, i)..]
  }

  /** The loop after `r` whole rounds and `n` visits of the next: the picks so far, and what is left. */
  ghost predicate Progress(all: seq<seq<Question>>, queues: seq<seq<Question>>, picked: seq<Question>, r: nat, n: nat) {
    n <= |all| && Shifted(all, queues, r, n) && picked == Tour(all, r) + Round(all, r, n)
  }

  lemma {:induction false} ShiftedVisit(all: seq<seq<Question>>, queues: seq<seq<Question>>, r: nat, at: nat)
    requires at < |all| && Shifted(all, queues, r, at)
    ensures queues[at] == (if r < |all[at]| then all[at][r..] else [])
    ensures queues[at] == [] ==> Shifted(all, queues, r, at + 1)
    ensures queues[at] != [] ==> Shifted(all, queues[at := queues[at][1..]], r, at + 1)
  {
    hide Round, Tour;
    assert queues[at] == all[at][Had(all, r, at, at)..];
    if queues[at] != [] {
      assert all[at][r..][1..] == all[at][r + 1..];
    }
  }

  /** Visiting one more queue picks what the round picks there and leaves that queue shifted once more. */
  lemma {:induction false} Visit(all: seq<seq<Question>>, queues: seq<seq<Question>>, picked: seq<Question>, r: nat,
                                 at: nat)
    requires at < |all| && Progress(all, queues, picked, r, at)
    ensures |queues| == |all|
    ensures queues[at] == [] ==> Progress(all, queues, picked, r, at + 1)
    ensures queues[at] != [] ==> Progress(all, queues[at := queues[at][1..]], picked + [queues[at][0]], r, at + 1)
  {
    hide Had, Shifted, Tour;
    ShiftedVisit(all, queues, r, at);
    ShiftedLength(all, queues, r, at);
    if queues[at] == [] {
      assert Round(all, r, at + 1) == Round(all, r, at);
    } else {
      assert Round(all, r, at + 1) == Round(all, r, at) + [queues[at][0]];
    }
  }

  lemma {:induction false} ShiftedLength(all: seq<seq<Question>>, queues: seq<seq<Question>>, r: nat, n: nat)
    requires Shifted(all, queues, r, n)
    ensures |queues| == |all|
  {
  }

  /** Nothing is left in any queue exactly when every round has been made. */
  lemma {:induction false} WhenEmpty(all: seq<seq<Question>>, queues: seq<seq<Question>>, picked: seq<Question>, r: nat)
    requires Progress(all, queues, picked, r, 0)
    ensures |queues| == |all|
    ensures (exists i :: 0 <= i < |queues| && |queues[i]| > 0) <==> r < Depth(all, |all|)
  {
    hide Tour, Round;
    if r < Depth(all, |all|) {
      var i :| 0 <= i < |all| && |all[i]| == Depth(all, |all|);
      assert |queues[i]| > 0;
    }
  }

  /** A finished round is a whole round of the tour, and the next starts where it ended. */
  lemma {:induction false} RoundDone(all: seq<seq<Question>>, queues: seq<seq<Question>>, picked: seq<Question>, r: nat)
    requires Progress(all, queues, picked, r, |all|)
    ensures Progress(all, queues, picked, r + 1, 0)
  {
  }

  lemma {:induction false} NothingPicked(all: seq<seq<Question>>)
    ensures Progress(all, all, [], 0, 0)
  {
  }

  /** Stopping at the target, or after the last round, is a prefix of the whole tour of the right length. */
  lemma {:induction false} Stops(all: seq<seq<Question>>, queues: seq<seq<Question>>, picked: seq<Question>, r: nat,
                                 n: nat, target: nat)
    requires Progress(all, queues, picked, r, n) && |picked| <= target
    requires r < Depth(all, |all|) || (r == Depth(all, |all|) && n == 0)
    requires |picked| < target ==> n == 0 && r == Depth(all, |all|)
    ensures picked == FullTour(all)[..Min(target, |FullTour(all)|)]
  {
    hide Tour, Shifted, Depth;
    TourPrefix(all, r, n, Depth(all, |all|));
  }

  /** Taking from the fronts of the queues in turn yields the tour, cut off at the target. */
  method RoundRobin(all: seq<seq<Question>>, target: nat) returns (picked: seq<Question>)
    ensures picked == FullTour(all)[..Min(target, |FullTour(all)|)]
  {
    hide Progress, FullTour, Depth;
    var queues := all;
    picked := [];
    ghost var r, n := 0, 0;
    NothingPicked(all);
    while |picked| < target && exists i :: 0 <= i < |queues| && |queues[i]| > 0
      invariant n <= |all| && |picked| <= target && |queues| == |all|
      invariant Progress(all, queues, picked, r, n)
      invariant r < Depth(all, |all|) || (r == Depth(all, |all|) && n == 0)
      invariant n == 0 || |picked| == target
      decreases Depth(all, |all|) - r, if n == 0 then 1 else 0
    {
      WhenEmpty(all, queues, picked, r);
      for at := 0 to |queues|
        invariant at == n <= |all| == |queues| && |picked| <= target && (at == 0 ==> |picked| < target)
        invariant Progress(all, queues, picked, r, n)
      {
        if |picked| >= target {
          break;
        }
        Visit(all, queues, picked, r, at);
        if |queues[at]| > 0 {
          picked := picked + [queues[at][0]];
          queues := queues[at := queues[at][1..]];
        }
        n := at + 1;
      }
      if n == |all| {
        RoundDone(all, queues, picked, r);
        r, n := r + 1, 0;
      }
    }
    if |picked| < target {
      WhenEmpty(all, queues, picked, r);
    }
    Stops(all, queues, picked, r, n, target);
  }

  method ForModules(rows: seq<Question>) returns (picked: seq<Question>)
    ensures picked == Picks(rows, PRACTICE_TARGET)
  {
    var queues := Group(rows);
    picked := RoundRobin(queues, PRACTICE_TARGET);
  }

  // ── What the picks are ───────────────────────────────────────────────────

  lemma {:induction false} PicksShape(rows: seq<Question>, target: nat) returns (r: nat, n: nat)
    ensures n <= |Queues(rows)| && Grouped(Queues(rows), Subjects(rows))
    ensures forall i :: 0 <= i < |Subjects(rows)| ==>
              Of(Picks(rows, target), Subjects(rows)[i]) == Queues(rows)[i][..Had(Queues(rows), r, n, i)]
    ensures forall m :: m !in Subjects(rows) ==> Of(Picks(rows, target), m) == []
  {
    var queues := Queues(rows);
    QueuesGrouped(rows);
    r, n := WhereItStops(queues, Depth(queues, |queues|), Min(target, |FullTour(queues)|));
    forall i | 0 <= i < |Subjects(rows)|
      ensures Of(Picks(rows, target), Subjects(rows)[i]) == queues[i][..Had(queues, r, n, i)]
    {
      TourOf(queues, Subjects(rows), r, n, i);
    }
    forall m | m !in Subjects(rows) ensures Of(Picks(rows, target), m) == [] {
      TourStaysIn(queues, Subjects(rows), r, m);
      RoundStaysIn(queues, Subjects(rows), r, n, m);
      OfConcat(Tour(queues, r), Round(queues, r, n), m);
    }
  }

  /** As many picks as asked for or available, and from each subject the first of its rows, in order. */
  lemma {:induction false} PicksArePrefixes(rows: seq<Question>, target: nat, m: ModuleId)
    ensures |Picks(rows, target)| == Min(target, |rows|)
    ensures Of(Picks(rows, target), m) <= Of(rows, m)
  {
    TourVisitsAll(rows);
    var r, n := PicksShape(rows, target);
    if m in Subjects(rows) {
      var i :| 0 <= i < |Subjects(rows)| && Subjects(rows)[i] == m;
    }
  }

  /** Two subjects differ by more than one pick only when the one behind has nothing left. */
  lemma {:induction false} PicksAreFair(rows: seq<Question>, target: nat, behind: ModuleId, ahead: ModuleId)
    requires |Of(Picks(rows, target), behind)| + 1 < |Of(Picks(rows, target), ahead)|
    ensures Of(Picks(rows, target), behind) == Of(rows, behind)
  {
    hide Of, Tour, Round;
    var r, n := PicksShape(rows, target);
    if behind in Subjects(rows) {
      var i :| 0 <= i < |Subjects(rows)| && Subjects(rows)[i] == behind;
      var j :| 0 <= j < |Subjects(rows)| && Subjects(rows)[j] == ahead;
      assert Had(Queues(rows), r, n, j) <= r + 1;
      assert Had(Queues(rows), r, n, i) == |Queues(rows)[i]|;
    } else {
      OfFacts(rows, behind);
    }
  }

  lemma {:induction false} FirstRound(queues: seq<seq<Question>>, n: nat)
    requires n <= |queues| && forall i :: 0 <= i < |queues| ==> queues[i] != []
    ensures |Round(queues, 0, n)| == n
  {
    if n > 0 {
      FirstRound(queues, n - 1);
    }
  }

  /** A target of at least one per subject shows every subject. */
  lemma {:induction false} EverySubjectShown(rows: seq<Question>, target: nat, m: ModuleId)
    requires m in Subjects(rows) && target >= |Subjects(rows)|
    ensures Of(Picks(rows, target), m) != []
  {
    hide Of, Tour, Round, Had;
    var queues, picks := Queues(rows), Picks(rows, target);
    var i :| 0 <= i < |Subjects(rows)| && Subjects(rows)[i] == m;
    QueuesGrouped(rows);
    FirstRoundLeads(queues);
    var first := Round(queues, 0, |queues|);
    assert picks == first + picks[|first|..];
    RoundOf(queues, Subjects(rows), 0, |queues|, i);
    OfConcat(first, picks[|first|..], m);
  }

  lemma {:induction false} FirstRoundLeads(queues: seq<seq<Question>>)
    requires queues != [] && forall i :: 0 <= i < |queues| ==> queues[i] != []
    ensures |Round(queues, 0, |queues|)| == |queues| && Round(queues, 0, |queues|) <= FullTour(queues)
  {
    hide Round;
    FirstRound(queues, |queues|);
    assert Depth(queues, |queues|) >= |queues[0]| >= 1;
    TourPrefix(queues, 0, |queues|, Depth(queues, |queues|));
    assert Tour(queues, 0) + Round(queues, 0, |queues|) == Round(queues, 0, |queues|);
  }

  /** Index of the subject's first row, or the number of rows when it has none. */
  function FirstRow(rows: seq<Question>, m: ModuleId, k: nat): (i: nat)
    requires k <= |rows|
    ensures k <= i <= |rows|
    ensures i < |rows| ==> rows[i].moduleId == m
    ensures forall j :: k <= j < i ==> rows[j].moduleId != m
    decreases |rows| - k
  {
    if k == |rows| || rows[k].moduleId == m then k else FirstRow(rows, m, k + 1)
  }

  /** Subjects come in the order of their first rows, and a subject's first question is its first row. */
  lemma {:induction false} SubjectsInOrder(rows: seq<Question>)
    ensures forall i, j :: 0 <= i < j < |Subjects(rows)| ==>
              FirstRow(rows, Subjects(rows)[i], 0) < FirstRow(rows, Subjects(rows)[j], 0)
    ensures forall i :: 0 <= i < |Subjects(rows)| ==>
              var first := FirstRow(rows, Subjects(rows)[i], 0);
              first < |rows| && Of(rows, Subjects(rows)[i]) != [] && Of(rows, Subjects(rows)[i])[0] == rows[first]
  {
    hide Of;
    if rows != [] {
      var front, last := rows[..|rows| - 1], rows[|rows| - 1];
      SubjectsInOrder(front);
      assert rows == front + [last];
      forall i | 0 <= i < |Subjects(rows)|
        ensures var m := Subjects(rows)[i]; var first := FirstRow(rows, m, 0);
          && first < |rows| && Of(rows, m) != [] && Of(rows, m)[0] == rows[first]
          && (if i < |Subjects(front)| then first == FirstRow(front, m, 0) < |front| else first == |front|)
      {
        var m := Subjects(rows)[i];
        OfNext(front, last, m);
        OfFacts(front, m);
        NotYet(front, m);
        if i < |Subjects(front)| {
          assert Subjects(front)[i] == m;
          SameFirst(rows, m, FirstRow(front, m, 0));
        } else {
          SameFirst(rows, m, |front|);
        }
      }
    }
  }

  lemma {:induction false} NotYet(rows: seq<Question>, m: ModuleId)
    ensures m !in Subjects(rows) ==> forall k :: 0 <= k < |rows| ==> rows[k].moduleId != m
  {
    if rows != [] {
      NotYet(rows[..|rows| - 1], m);
    }
  }

  lemma {:induction false} SameFirst(rows: seq<Question>, m: ModuleId, i: nat)
    requires i < |rows| && rows[i].moduleId == m && forall j :: 0 <= j < i ==> rows[j].moduleId != m
    ensures FirstRow(rows, m, 0) == i
  {
  }

  lemma {:induction false} RoundAt(queues: seq<seq<Question>>, n: nat, k: nat)
    requires k < n <= |queues| && forall i :: 0 <= i < |queues| ==> queues[i] != []
    ensures |Round(queues, 0, n)| == n && Round(queues, 0, n)[k] == queues[k][0]
  {
    FirstRound(queues, n);
    FirstRound(queues, n - 1);
    if k < n - 1 {
      RoundAt(queues, n - 1, k);
    }
  }

  /** The first picks are the first questions of the subjects, in the order in which the subjects appear. */
  lemma {:induction false} FirstPicks(rows: seq<Question>, target: nat, k: nat)
    requires k < target && k < |Subjects(rows)|
    ensures var first := FirstRow(rows, Subjects(rows)[k], 0);
      k < |Picks(rows, target)| && first < |rows| && Picks(rows, target)[k] == rows[first]
  {
    hide Of, Tour, Round, Had;
    var queues := Queues(rows);
    QueuesGrouped(rows);
    FirstRoundLeads(queues);
    RoundAt(queues, |queues|, k);
    SubjectsInOrder(rows);
  }
}
