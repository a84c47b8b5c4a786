/**
 * Replaying the response log: what the log alone determines about each module,
 * and that appending the row of a recorded answer keeps the replay in step with the live run.
 */
module SessionReplay {
  import opened Wrappers
  import opened Rounding
  import opened EngineTypes
  import opened AdaptiveEngine
  import opened SessionRuntime

  // ── Well-formed logs ─────────────────────────────────────────────────────

  ghost predicate KnownModule(c: Setup, id: ModuleId) {
    exists i :: 0 <= i < |c.configs| && c.configs[i].moduleId == id
  }

  /**
   * The row of an objective module says whether the bank's correct option was the one chosen; the row of a
   * trait module says nothing of the kind. The module's question has the details it takes to tell.
   */
  ghost predicate VerdictOk(c: Setup, r: Response, question: Question) {
    forall i :: 0 <= i < |c.configs| && c.configs[i].moduleId == r.moduleId ==>
      if c.configs[i].scoringType.Objective? then
        && question.mcq.Some? && r.selectedOptions.None?
        && r.isCorrect == Some(r.selectedOption == Some(question.mcq.value.correctOption))
        && r.abilityAfter.Some? && r.difficultyAtServe.Some?
      else
        question.personality.Some? && r.isCorrect.None? && r.abilityAfter.None? && r.difficultyAtServe.None?
  }

  /** A row of a question of the bank, for the configured module it belongs to, with a stored-precision estimate. */
  ghost predicate RowOk(c: Setup, r: Response) {
    && KnownModule(c, r.moduleId)
    && r.questionId in c.bank && c.bank[r.questionId].moduleId == r.moduleId
    && (r.abilityAfter.Some? ==> Round2(r.abilityAfter.value) == r.abilityAfter.value)
    && VerdictOk(c, r, c.bank[r.questionId])
  }

  /** Rows are numbered 1..n in order, no question has two of them, and all of them were stored before `deadline`. */
  ghost predicate LogOk(c: Setup, log: seq<Response>, deadline: int) {
    && (forall k :: 0 <= k < |log| ==>
          log[k].sequenceNumber == k + 1 && log[k].answeredAt < deadline && RowOk(c, log[k]))
    && (forall j, k :: 0 <= j < k < |log| ==> log[j].questionId != log[k].questionId)
  }

  /** Answers counted by the first `n` modules. */
  function SumAnswered(ms: seq<ModuleRun>, n: nat): nat
    requires n <= |ms|
  {
    if n == 0 then 0 else SumAnswered(ms, n - 1) + ms[n - 1].answered
  }

  /** Questions shown by the first `n` modules. */
  function SumSeen(ms: seq<ModuleRun>, n: nat): nat
    requires n <= |ms|
  {
    if n == 0 then 0 else SumSeen(ms, n - 1) + |ms[n - 1].seen|
  }

  function RoundAll(xs: seq<real>): (r: seq<real>)
    ensures |r| == |xs|
    ensures forall i :: 0 <= i < |xs| ==> r[i] == Round2(xs[i])
  {
    seq(|xs|, i requires 0 <= i < |xs| => Round2(xs[i]))
  }

  // ── The replay mirrors the live run ──────────────────────────────────────

  /**
   * `r`, folded from the log, agrees with the live module `m`: the same counts, tallies, patterns and
   * probe pairs, the estimates at stored precision, and the same seen ids and probe groups except for
   * the question `shown` on screen, which has no row yet.
   */
  ghost predicate Mirrors(c: Setup, r: ModuleRun, m: ModuleRun, shown: Option<QuestionId>) {
    && r.config == m.config
    && r.answered == m.answered
    && r.correct == m.correct
    && r.traitTallies == m.traitTallies
    && r.patternCounts == m.patternCounts
    && r.probes == m.probes
    && r.ability == Round2(m.ability)
    && r.recentAbilities == RoundAll(m.recentAbilities)
    && match shown
       case None => m.seen == r.seen && m.servedGroups == r.servedGroups
       case Some(id) =>
         && id in c.bank
         && m.seen == r.seen + [id]
         && m.servedGroups == MarkServed(r.servedGroups, c.bank[id].probeGroup)
  }

  lemma {:induction false} NoWeightsNoChange(tallies: map<TraitKey, Tally>)
    ensures ApplyTraitWeights(tallies, map[], map[]) == tallies
  {
  }

  lemma {:induction false} TrackRounded(recent: seq<real>, ability: real)
    ensures TrackAbility(RoundAll(recent), Round2(ability)) == RoundAll(TrackAbility(recent, ability))
  {
    assert RoundAll(recent) + [Round2(ability)] == RoundAll(recent + [ability]);
  }

  lemma {:induction false} ObjectiveAnswerMirrored(c: Setup, r: ModuleRun, m: ModuleRun, id: QuestionId, answer: Answer,
                                sequence: nat, difficulty: int, servedAt: int, now: int)
    requires m.config.scoringType.Objective? && Mirrors(c, r, m, Some(id))
    requires RecordAnswer(c.scoring, m, id, c.bank[id], answer, sequence, difficulty).Ok?
    ensures
      var (m1, outcome) := RecordAnswer(c.scoring, m, id, c.bank[id], answer, sequence, difficulty).value;
      var row := ResponseFor(m.config.moduleId, id, answer, outcome, sequence, servedAt, now);
      Mirrors(c, ReplayAnswer(c.scoring, r, row, c.bank[id]), m1, None)
  {
    var (m1, outcome) := RecordAnswer(c.scoring, m, id, c.bank[id], answer, sequence, difficulty).value;
    TrackRounded(m.recentAbilities, m1.ability);
  }

  lemma {:induction false} TraitAnswerMirrored(c: Setup, r: ModuleRun, m: ModuleRun, id: QuestionId, answer: Answer,
                            sequence: nat, difficulty: int, servedAt: int, now: int)
    requires m.config.scoringType.Trait? && Mirrors(c, r, m, Some(id))
    requires answer.Ranked? ==> |answer.options| > 0
    requires RecordAnswer(c.scoring, m, id, c.bank[id], answer, sequence, difficulty).Ok?
    ensures
      var (m1, outcome) := RecordAnswer(c.scoring, m, id, c.bank[id], answer, sequence, difficulty).value;
      var row := ResponseFor(m.config.moduleId, id, answer, outcome, sequence, servedAt, now);
      Mirrors(c, ReplayAnswer(c.scoring, r, row, c.bank[id]), m1, None)
  {
    var (m1, outcome) := RecordAnswer(c.scoring, m, id, c.bank[id], answer, sequence, difficulty).value;
    var row := ResponseFor(m.config.moduleId, id, answer, outcome, sequence, servedAt, now);
    match answer {
      case Unanswered => NoWeightsNoChange(m.traitTallies);
      case Chosen(_) =>
      case Ranked(_) =>
    }
  }

  /** What is stored of an answer that is scored: the verdict of the bank, and for traits none. */
  lemma {:induction false} VerdictOfBank(c: Setup, m: ModuleRun, i: nat, id: QuestionId, answer: Answer,
                                         sequence: nat, difficulty: int, servedAt: int, now: int)
    requires ValidSetup(c) && i < |c.configs| && m.config == c.configs[i] && id in c.bank
    requires RecordAnswer(c.scoring, m, id, c.bank[id], answer, sequence, difficulty).Ok?
    ensures var outcome := RecordAnswer(c.scoring, m, id, c.bank[id], answer, sequence, difficulty).value.1;
      VerdictOk(c, ResponseFor(m.config.moduleId, id, answer, outcome, sequence, servedAt, now), c.bank[id])
  {
    hide PairsAfter, ApplyTraitWeights, CountPattern, TrackAbility, Round2;
  }

  /**
   * Recording an answer and replaying its row agree, whatever the answer, the question and the
   * difficulty it was scored at.
   */
  lemma {:induction false} AnswerMirrored(c: Setup, r: ModuleRun, m: ModuleRun, id: QuestionId, answer: Answer,
                       sequence: nat, difficulty: int, servedAt: int, now: int)
    requires Mirrors(c, r, m, Some(id))
    requires answer.Ranked? ==> |answer.options| > 0
    requires RecordAnswer(c.scoring, m, id, c.bank[id], answer, sequence, difficulty).Ok?
    ensures
      var (m1, outcome) := RecordAnswer(c.scoring, m, id, c.bank[id], answer, sequence, difficulty).value;
      var row := ResponseFor(m.config.moduleId, id, answer, outcome, sequence, servedAt, now);
      && Mirrors(c, ReplayAnswer(c.scoring, r, row, c.bank[id]), m1, None)
      && (row.abilityAfter.Some? ==> Round2(row.abilityAfter.value) == row.abilityAfter.value)
      && m1.answered == m.answered + 1 && m1.config == m.config && m1.status == m.status
      && m1.startedAt == m.startedAt && m1.deadlineAt == m.deadlineAt && m1.completedAt == m.completedAt
  {
    if m.config.scoringType.Objective? {
      ObjectiveAnswerMirrored(c, r, m, id, answer, sequence, difficulty, servedAt, now);
      var (m1, outcome) := RecordAnswer(c.scoring, m, id, c.bank[id], answer, sequence, difficulty).value;
      Round2Facts(m1.ability);
    } else {
      TraitAnswerMirrored(c, r, m, id, answer, sequence, difficulty, servedAt, now);
    }
  }

  // ── What a log determines ────────────────────────────────────────────────

  /** A module as the log alone describes it: begun exactly when answered, estimates at stored precision. */
  ghost predicate FromLog(m: ModuleRun, config: ModuleConfig) {
    && m.config == config
    && m.status == (if m.answered > 0 then InProgress else Pending)
    && m.completedAt.None? && m.stopReason.None? && m.startedAt.None? && m.deadlineAt.None?
    && |m.seen| == m.answered
    && Round2(m.ability) == m.ability
    && RoundAll(m.recentAbilities) == m.recentAbilities
  }

  ghost predicate RowsOk(c: Setup, log: seq<Response>) {
    forall k :: 0 <= k < |log| ==> RowOk(c, log[k])
  }

  lemma {:induction false} ReplayAnswerFromLog(c: Setup, m: ModuleRun, r: Response, config: ModuleConfig)
    requires FromLog(m, config) && RowOk(c, r)
    ensures FromLog(ReplayAnswer(c.scoring, m, r, c.bank[r.questionId]), config)
    ensures ReplayAnswer(c.scoring, m, r, c.bank[r.questionId]).answered == m.answered + 1
    ensures ReplayAnswer(c.scoring, m, r, c.bank[r.questionId]).seen == m.seen + [r.questionId]
  {
    hide PairsAfter, MarkServed, ApplyTraitWeights, CountPattern, ReplayTraitAnswer, InformationAt, TrackAbility, Round2;
    var ability := if r.abilityAfter.Some? then r.abilityAfter.value else m.ability;
    TrackRounded(m.recentAbilities, ability);
  }

  lemma {:induction false} FindModuleAt(c: Setup, ms: seq<ModuleRun>, i: nat)
    requires ValidSetup(c) && |ms| == |c.configs| && i < |ms|
    requires forall j :: 0 <= j < |ms| ==> ms[j].config == c.configs[j]
    ensures FindModuleFrom(ms, c.configs[i].moduleId, 0) == i
  {
    assert forall j :: 0 <= j < i ==> ms[j].config.moduleId != c.configs[i].moduleId;
  }

  lemma {:induction false} SumAnsweredUpdate(ms: seq<ModuleRun>, i: nat, m: ModuleRun, n: nat)
    requires i < |ms| && n <= |ms|
    ensures SumAnswered(ms[i := m], n)
            == SumAnswered(ms, n) + (if i < n then m.answered - ms[i].answered else 0)
  {
    if n > 0 {
      SumAnsweredUpdate(ms, i, m, n - 1);
    }
  }

  lemma {:induction false} SumAnsweredZero(ms: seq<ModuleRun>, n: nat)
    requires n <= |ms|
    requires forall i :: 0 <= i < n ==> ms[i].answered == 0
    ensures SumAnswered(ms, n) == 0
  {
    if n > 0 {
      SumAnsweredZero(ms, n - 1);
    }
  }

  /** One row lands in exactly the module it names. */
  lemma {:induction false} ReplayStep(c: Setup, before: seq<ModuleRun>, r: Response) returns (i: nat, m: ModuleRun)
    requires ValidSetup(c) && RowOk(c, r) && |before| == |c.configs|
    requires forall j :: 0 <= j < |before| ==> FromLog(before[j], c.configs[j])
    ensures i < |before| && c.configs[i].moduleId == r.moduleId
    ensures ReplayInto(c, before, r) == before[i := m]
    ensures FromLog(m, c.configs[i]) && m.seen == before[i].seen + [r.questionId]
    ensures SumAnswered(before[i := m], |before|) == SumAnswered(before, |before|) + 1
  {
    i :| 0 <= i < |c.configs| && c.configs[i].moduleId == r.moduleId;
    FindModuleAt(c, before, i);
    m := ReplayAnswer(c.scoring, before[i], r, c.bank[r.questionId]);
    ReplayAnswerFromLog(c, before[i], r, c.configs[i]);
    SumAnsweredUpdate(before, i, m, |before|);
  }

  lemma {:induction false} ReplayLast(c: Setup, log: seq<Response>) returns (i: nat, m: ModuleRun)
    requires ValidSetup(c) && RowsOk(c, log) && log != []
    requires forall i :: 0 <= i < |c.configs| ==> FromLog(Replay(c, log[..|log| - 1])[i], c.configs[i])
    ensures i < |c.configs| && c.configs[i].moduleId == log[|log| - 1].moduleId
    ensures Replay(c, log) == Replay(c, log[..|log| - 1])[i := m]
    ensures FromLog(m, c.configs[i])
    ensures m.seen == Replay(c, log[..|log| - 1])[i].seen + [log[|log| - 1].questionId]
    ensures SumAnswered(Replay(c, log), |c.configs|)
            == SumAnswered(Replay(c, log[..|log| - 1]), |c.configs|) + 1
  {
    i, m := ReplayStep(c, Replay(c, log[..|log| - 1]), log[|log| - 1]);
  }

  /** Every log describes begun and untouched modules, and as many answers as it has rows. */
  lemma {:induction false} ReplayFacts(c: Setup, log: seq<Response>)
    requires ValidSetup(c) && RowsOk(c, log)
    ensures forall i :: 0 <= i < |c.configs| ==> FromLog(Replay(c, log)[i], c.configs[i])
    ensures SumAnswered(Replay(c, log), |c.configs|) == |log|
  {
    if log == [] {
      SumAnsweredZero(FreshModules(c.configs), |c.configs|);
      FreshFromLog(c.configs);
    } else {
      ReplayFacts(c, log[..|log| - 1]);
      var i, m := ReplayLast(c, log);
    }
  }

  lemma {:induction false} FreshFromLog(configs: seq<ModuleConfig>)
    ensures forall i :: 0 <= i < |configs| ==> FromLog(FreshModules(configs)[i], configs[i])
  {
    RoundIntFixed(100000);
    assert Round2(STARTING_ABILITY) == STARTING_ABILITY;
  }

  lemma {:induction false} ReplayConfig(c: Setup, log: seq<Response>, i: nat)
    requires i < |c.configs|
    ensures Replay(c, log)[i].config == c.configs[i]
  {
    if log != [] {
      ReplayConfig(c, log[..|log| - 1], i);
    }
  }

  /** Every question of the first `n` rows counts as seen in the module its row names. */
  ghost predicate SeenCovers(c: Setup, ms: seq<ModuleRun>, log: seq<Response>, n: nat)
    requires |ms| == |c.configs| && n <= |log|
  {
    forall i, k :: 0 <= i < |ms| && 0 <= k < n && log[k].moduleId == c.configs[i].moduleId
      ==> log[k].questionId in ms[i].seen
  }

  lemma {:induction false} SeenCoversStep(c: Setup, before: seq<ModuleRun>, j: nat, m: ModuleRun,
                                          log: seq<Response>, n: nat)
    requires ValidSetup(c) && |before| == |c.configs| && n < |log| && j < |before|
    requires c.configs[j].moduleId == log[n].moduleId && m.seen == before[j].seen + [log[n].questionId]
    requires SeenCovers(c, before, log, n)
    ensures SeenCovers(c, before[j := m], log, n + 1)
  {
  }

  lemma {:induction false} ReplaySeen(c: Setup, log: seq<Response>)
    requires ValidSetup(c) && RowsOk(c, log)
    ensures SeenCovers(c, Replay(c, log), log, |log|)
  {
    if log != [] {
      var last := |log| - 1;
      ReplayFacts(c, log[..last]);
      var j, m := ReplayLast(c, log);
      ReplaySeen(c, log[..last]);
      assert SeenCovers(c, Replay(c, log[..last]), log, last) by {
        assert forall k :: 0 <= k < last ==> log[..last][k] == log[k];
      }
      SeenCoversStep(c, Replay(c, log[..last]), j, m, log, last);
    }
  }

  /** Appending a row for module `i` changes the replay of that module only. */
  lemma {:induction false} ReplayAppend(c: Setup, log: seq<Response>, r: Response, i: nat)
    requires ValidSetup(c) && RowsOk(c, log) && RowOk(c, r)
    requires i < |c.configs| && r.moduleId == c.configs[i].moduleId
    ensures Replay(c, log + [r])
            == Replay(c, log)[i := ReplayAnswer(c.scoring, Replay(c, log)[i], r, c.bank[r.questionId])]
  {
    assert (log + [r])[..|log|] == log;
    ReplayFacts(c, log);
    FindModuleAt(c, Replay(c, log), i);
  }
}
