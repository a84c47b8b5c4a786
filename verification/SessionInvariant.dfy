/** The invariant of the candidate session runtime, and that every request keeps it. */
module SessionInvariant {
  import opened Wrappers
  import opened Rounding
  import opened EngineTypes
  import opened AdaptiveEngine
  import opened SessionRuntime
  import opened SessionReplay

  // ── The invariant ────────────────────────────────────────────────────────

  /** A stored result carries the scores and counts that the replayed module has. */
  predicate SameScores(scoring: Scoring, result: ModuleResult, r: ModuleRun) {
    result == ResultOf(scoring, r.(stopReason := result.stopReason, startedAt := result.startedAt,
                                   completedAt := result.completedAt))
  }

  /**
   * The reason a module closed with, against what it had answered, when it started and when it closed: its
   * time was up, or it had asked all its questions, or there was none left to ask.
   */
  predicate ReasonFits(config: ModuleConfig, answered: nat, startedAt: int, closedAt: int, reason: StopReason) {
    match reason
    case TimeExpired => closedAt >= startedAt + config.timeLimitSeconds * 1000
    case MaxQuestions => answered == config.questionCount && closedAt < startedAt + config.timeLimitSeconds * 1000
    case _ => answered < config.questionCount && closedAt < startedAt + config.timeLimitSeconds * 1000
  }

  predicate ResultReasonOk(config: ModuleConfig, result: ModuleResult) {
    && result.completedAt.Some? && result.stopReason.Some? && result.startedAt.Some?
    && ReasonFits(config, result.questionsAnswered, result.startedAt.value, result.completedAt.value,
                  result.stopReason.value)
  }

  /** The first `f` modules have a completed result that agrees with the log, and the others have none. */
  ghost predicate ResultsOk(c: Setup, w: World, f: nat) {
    && (forall i :: 0 <= i < |c.configs| && i < f ==>
          && Closed(w.results, c.configs[i].moduleId)
          && ResultReasonOk(c.configs[i], w.results[c.configs[i].moduleId])
          && SameScores(c.scoring, w.results[c.configs[i].moduleId], Replay(c, w.responses)[i]))
    && (forall i :: f <= i < |c.configs| ==> c.configs[i].moduleId !in w.results)
    && (forall id :: id in w.results ==> KnownModule(c, id))
  }

  /** The database rows of a running session with `f` closed modules. */
  ghost predicate DbOk(c: Setup, w: World, f: nat) {
    && w.row.status.SessionInProgress? && w.row.submittedAt.None?
    && f <= |c.configs|
    && LogOk(c, w.responses, w.row.expiresAt)
    && ResultsOk(c, w, f)
    && (forall i :: 0 <= i < |c.configs| ==>
          Replay(c, w.responses)[i].answered <= c.configs[i].questionCount)
    && (forall i :: f < i < |c.configs| ==> Replay(c, w.responses)[i].answered == 0)
  }

  /** The question on screen, for the module at the current index only. */
  function ShownIn(st: Live, i: nat): Option<QuestionId> {
    if i == st.current && st.served.Some? then Some(st.served.value.questionId) else None
  }

  /** A running module's deadline is its whole time limit after its start. */
  predicate RunsOut(m: ModuleRun)
    requires m.startedAt.Some?
  {
    m.deadlineAt == Some(m.startedAt.value + m.config.timeLimitSeconds * 1000)
  }

  /** Where a live module stands relative to the current index `f`. */
  predicate StatusOk(w: World, m: ModuleRun, i: nat, f: nat) {
    if i < f then
      && m.status.Completed? && m.config.moduleId in w.results
      && m.stopReason == w.results[m.config.moduleId].stopReason
      && m.completedAt == w.results[m.config.moduleId].completedAt
      && (m.startedAt.Some? ==> m.startedAt == w.results[m.config.moduleId].startedAt)
    else
      && m.completedAt.None? && m.stopReason.None?
      && (m.status.Pending? || (i == f && m.status.InProgress? && m.startedAt.Some? && RunsOut(m)))
      && (m.status.Pending? ==> m.answered == 0)
  }

  /** A question is only on screen in the running current module, fits it, and is new to the log. */
  ghost predicate ServedOk(c: Setup, r: ModuleRun, m: ModuleRun, served: Served) {
    && m.status.InProgress?
    && served.moduleId == m.config.moduleId
    && Fits(c, m.config, served.questionId)
    && served.questionId !in r.seen
    && m.answered < m.config.questionCount
  }

  /** A live state that mirrors the database of a running session. */
  ghost predicate LiveOk(c: Setup, w: World, f: nat, st: Live) {
    && st.candidateId == w.row.candidateId && st.startedAt == w.row.startedAt
    && st.expiresAt == w.row.expiresAt && !st.finished
    && st.answeredTotal == |w.responses|
    && |st.modules| == |c.configs| && st.current == f
    && (forall i :: 0 <= i < |c.configs| ==>
          && Mirrors(c, Replay(c, w.responses)[i], st.modules[i], ShownIn(st, i))
          && StatusOk(w, st.modules[i], i, f))
    && (st.served.Some? ==>
          f < |c.configs| && ServedOk(c, Replay(c, w.responses)[f], st.modules[f], st.served.value))
  }

  /** The live state of a finished session: its clocks may still move, its answers may not. */
  ghost predicate FinishedLiveOk(c: Setup, w: World, st: Live) {
    && st.candidateId == w.row.candidateId && st.startedAt == w.row.startedAt
    && st.expiresAt == w.row.expiresAt && st.finished
    && st.answeredTotal == |w.responses|
    && |st.modules| == |c.configs|
    && (forall i :: 0 <= i < |c.configs| ==>
          && st.modules[i].config == c.configs[i]
          && st.modules[i].answered == Replay(c, w.responses)[i].answered
          && st.modules[i].answered <= |st.modules[i].seen|
          && (st.modules[i].status.Pending? ==>
                st.modules[i].answered == 0 && !Closed(w.results, c.configs[i].moduleId)))
    && SumSeen(st.modules, |st.modules|) <= |w.responses| + 1
  }

  /** After the end, a module that never ran has no reason; any other reason but time still tells how much was asked. */
  predicate FinalReason(config: ModuleConfig, result: ModuleResult) {
    && (result.stopReason.Some? <==> result.completedAt.Some?)
    && match result.stopReason
       case None => result.questionsAnswered == 0
       case Some(TimeExpired) => true
       case Some(MaxQuestions) => result.questionsAnswered == config.questionCount
       case Some(_) => result.questionsAnswered < config.questionCount
  }

  /** A finished session has one result for every configured module, and each agrees with the log. */
  ghost predicate FinishedOk(c: Setup, w: World) {
    && !w.row.status.SessionInProgress? && w.row.submittedAt.Some?
    && LogOk(c, w.responses, w.row.expiresAt)
    && (forall i :: 0 <= i < |c.configs| ==>
          c.configs[i].moduleId in w.results
          && SameScores(c.scoring, w.results[c.configs[i].moduleId], Replay(c, w.responses)[i])
          && FinalReason(c.configs[i], w.results[c.configs[i].moduleId]))
    && (forall id :: id in w.results ==> KnownModule(c, id))
    && (w.store.Some? ==> FinishedLiveOk(c, w, w.store.value))
  }

  /** A running session with `f` closed modules, not yet at its end. */
  ghost predicate RunningOk(c: Setup, w: World, f: nat) {
    && DbOk(c, w, f) && f < |c.configs|
    && (w.store.Some? ==> LiveOk(c, w, f, w.store.value))
  }

  ghost predicate Inv(c: Setup, w: World) {
    FinishedOk(c, w) || exists f :: RunningOk(c, w, f)
  }

  lemma {:induction false} RunningFromRow(c: Setup, w: World)
    requires Inv(c, w) && w.row.status.SessionInProgress?
    ensures exists f :: RunningOk(c, w, f)
  {
  }

  // ── Creating and rebuilding ──────────────────────────────────────────────

  lemma {:induction false} CreateOk(c: Setup, candidateId: CandidateId, now: int)
    requires ValidSetup(c)
    ensures Inv(c, Create(c, candidateId, now))
  {
    var w := Create(c, candidateId, now);
    ReplayFacts(c, []);
    assert RunningOk(c, w, 0);
  }

  lemma {:induction false} LogRows(c: Setup, log: seq<Response>, deadline: int)
    requires LogOk(c, log, deadline)
    ensures RowsOk(c, log)
  {
  }

  lemma {:induction false} FirstUnfinishedAt(ms: seq<ModuleRun>, f: nat)
    requires f <= |ms|
    requires forall i :: 0 <= i < f ==> ms[i].status.Completed?
    requires f < |ms| ==> !ms[f].status.Completed?
    ensures FirstUnfinishedFrom(ms, 0) == f
  {
  }

  /** Settling a replayed module gives one that mirrors it, in the state its result and its answers call for. */
  lemma {:induction false} SettleOk(c: Setup, w: World, f: nat, i: nat, now: int)
    requires ValidSetup(c) && DbOk(c, w, f) && i < |c.configs|
    requires FromLog(Replay(c, w.responses)[i], c.configs[i])
    ensures var m := Settle(Replay(c, w.responses)[i], w.results, now);
      && Mirrors(c, Replay(c, w.responses)[i], m, None)
      && StatusOk(w, m, i, f)
  {
    hide Replay, LogOk, SameScores, RoundAll, Mirrors;
    SettledStatus(c, w, Replay(c, w.responses)[i], f, i, now);
    SettledMirrors(c, w, Replay(c, w.responses)[i], i, now);
  }

  lemma {:induction false} SettledStatus(c: Setup, w: World, r: ModuleRun, f: nat, i: nat, now: int)
    requires i < |c.configs| && FromLog(r, c.configs[i])
    requires i < f ==> Closed(w.results, c.configs[i].moduleId)
    requires i >= f ==> c.configs[i].moduleId !in w.results
    requires i > f ==> r.answered == 0
    ensures StatusOk(w, Settle(r, w.results, now), i, f)
  {
    hide RoundAll, Round2;
  }

  lemma {:induction false} SettledMirrors(c: Setup, w: World, r: ModuleRun, i: nat, now: int)
    requires i < |c.configs| && FromLog(r, c.configs[i])
    ensures Mirrors(c, r, Settle(r, w.results, now), None)
  {
    hide RoundAll, Round2;
  }

  /** A running session can always be rebuilt from its rows alone. */
  lemma {:induction false} RehydrateOk(c: Setup, w: World, f: nat, now: int)
    requires ValidSetup(c) && DbOk(c, w, f)
    ensures LiveOk(c, w, f, Rehydrate(c, now, w))
  {
    hide Replay, Mirrors, LogOk, FromLog, Settle, ResultsOk;
    LogRows(c, w.responses, w.row.expiresAt);
    ReplayFacts(c, w.responses);
    var st := Rehydrate(c, now, w);
    forall i | 0 <= i < |c.configs|
      ensures Mirrors(c, Replay(c, w.responses)[i], st.modules[i], None) && StatusOk(w, st.modules[i], i, f)
    {
      SettleOk(c, w, f, i, now);
    }
    FirstUnfinishedAt(st.modules, f);
  }

  // ── Answers ──────────────────────────────────────────────────────────────

  /** The question on screen has no row yet. */
  lemma {:induction false} ServedIsNew(c: Setup, w: World, f: nat, st: Live)
    requires ValidSetup(c) && DbOk(c, w, f) && LiveOk(c, w, f, st) && st.served.Some?
    ensures !Answered(w.responses, st.served.value.questionId)
  {
    var log, id := w.responses, st.served.value.questionId;
    LogRows(c, log, w.row.expiresAt);
    ReplaySeen(c, log);
    assert Replay(c, log)[f].config == st.modules[f].config by {
      assert Mirrors(c, Replay(c, log)[f], st.modules[f], ShownIn(st, f));
    }
    ReplayFacts(c, log);
    forall k | 0 <= k < |log|
      ensures log[k].questionId != id
    {
      assert RowOk(c, log[k]);
    }
  }

  /** Closing out a question that nobody answered cannot be refused. */
  lemma {:induction false} UnansweredAccepted(c: Setup, env: Moment, w: World, f: nat, st: Live)
    requires ValidSetup(c) && DbOk(c, w, f) && LiveOk(c, w, f, st) && st.served.Some?
    ensures ApplyAnswer(c, env, w, st, f, st.served.value, Unanswered).Ok?
  {
    ServedIsNew(c, w, f, st);
  }

  lemma {:induction false} LogExtended(c: Setup, log: seq<Response>, r: Response, deadline: int)
    requires LogOk(c, log, deadline) && RowOk(c, r) && !Answered(log, r.questionId)
    requires r.sequenceNumber == |log| + 1 && r.answeredAt < deadline
    ensures LogOk(c, log + [r], deadline)
  {
    var out := log + [r];
    forall j, k | 0 <= j < k < |out|
      ensures out[j].questionId != out[k].questionId
    {
      assert out[j] in log;
    }
  }

  /** What an accepted answer appends and changes. */
  lemma {:induction false} AnswerRow(c: Setup, env: Moment, w: World, f: nat, st: Live, answer: Answer)
    returns (row: Response, m1: ModuleRun)
    requires ValidSetup(c) && LiveOk(c, w, f, st) && st.served.Some?
    requires answer.Ranked? ==> |answer.options| > 0
    requires ApplyAnswer(c, env, w, st, f, st.served.value, answer).Ok?
    ensures ApplyAnswer(c, env, w, st, f, st.served.value, answer).value
            == (w.(responses := w.responses + [row]),
                st.(modules := st.modules[f := m1], answeredTotal := st.answeredTotal + 1, served := None))
    ensures RowOk(c, row) && row.moduleId == c.configs[f].moduleId && row.answeredAt == env.now
    ensures row.sequenceNumber == |w.responses| + 1 && !Answered(w.responses, row.questionId)
    ensures row.selectedOption == (if answer.Chosen? then Some(answer.option) else None)
    ensures row.selectedOptions == (if answer.Ranked? then Some(answer.options) else None)
    ensures Mirrors(c, ReplayAnswer(c.scoring, Replay(c, w.responses)[f], row, c.bank[row.questionId]), m1, None)
    ensures m1.answered == st.modules[f].answered + 1 <= c.configs[f].questionCount
    ensures ReplayAnswer(c.scoring, Replay(c, w.responses)[f], row, c.bank[row.questionId]).answered == m1.answered
    ensures m1.config == c.configs[f] == st.modules[f].config
    ensures m1 == m1.(status := InProgress, startedAt := st.modules[f].startedAt, deadlineAt := st.modules[f].deadlineAt,
                      completedAt := None, stopReason := None)
  {
    hide VerdictOk;
    var id, r, m := st.served.value.questionId, Replay(c, w.responses)[f], st.modules[f];
    assert Mirrors(c, r, m, ShownIn(st, f)) && StatusOk(w, m, f, f);
    var sequence := st.answeredTotal + 1;
    AnswerMirrored(c, r, m, id, answer, sequence, env.difficulty(id), st.served.value.servedAt, env.now);
    var (m2, outcome) := RecordAnswer(c.scoring, m, id, c.bank[id], answer, sequence, env.difficulty(id)).value;
    row, m1 := ResponseFor(m.config.moduleId, id, answer, outcome, sequence, st.served.value.servedAt, env.now), m2;
    ReplayConfig(c, w.responses, f);
    VerdictOfBank(c, m, f, id, answer, sequence, env.difficulty(id), st.served.value.servedAt, env.now);
  }

  lemma {:induction false} RowKept(c: Setup, w: World, f: nat, row: Response)
    requires ValidSetup(c) && DbOk(c, w, f) && f < |c.configs|
    requires RowOk(c, row) && row.moduleId == c.configs[f].moduleId && row.answeredAt < w.row.expiresAt
    requires row.sequenceNumber == |w.responses| + 1 && !Answered(w.responses, row.questionId)
    requires ReplayAnswer(c.scoring, Replay(c, w.responses)[f], row, c.bank[row.questionId]).answered
             <= c.configs[f].questionCount
    ensures DbOk(c, w.(responses := w.responses + [row]), f)
  {
    hide RowOk, Replay, ReplayAnswer, SameScores, Closed, KnownModule;
    LogRows(c, w.responses, w.row.expiresAt);
    LogExtended(c, w.responses, row, w.row.expiresAt);
    ReplayAppend(c, w.responses, row, f);
    assert ResultsOk(c, w.(responses := w.responses + [row]), f);
  }

  lemma {:induction false} LiveKept(c: Setup, w: World, f: nat, st: Live, row: Response, m1: ModuleRun)
    requires ValidSetup(c) && LiveOk(c, w, f, st) && f < |c.configs| && RowsOk(c, w.responses)
    requires RowOk(c, row) && row.moduleId == c.configs[f].moduleId
    requires Mirrors(c, ReplayAnswer(c.scoring, Replay(c, w.responses)[f], row, c.bank[row.questionId]), m1, None)
    requires StatusOk(w, m1, f, f)
    ensures LiveOk(c, w.(responses := w.responses + [row]), f,
                   st.(modules := st.modules[f := m1], answeredTotal := st.answeredTotal + 1, served := None))
  {
    hide Mirrors, ReplayAnswer, Fits, RowOk, Replay;
    ReplayAppend(c, w.responses, row, f);
    forall i | 0 <= i < |c.configs| && i != f
      ensures Mirrors(c, Replay(c, w.responses + [row])[i], st.modules[i], None)
      ensures StatusOk(w, st.modules[i], i, f)
    {
      assert Mirrors(c, Replay(c, w.responses)[i], st.modules[i], ShownIn(st, i));
    }
  }

  lemma {:induction false} LiveStatus(c: Setup, w: World, f: nat, st: Live)
    requires LiveOk(c, w, f, st)
    ensures forall i :: 0 <= i < |c.configs| ==> StatusOk(w, st.modules[i], i, f)
    ensures st.served.Some? ==> f < |c.configs| && st.modules[f].status.InProgress?
  {
  }

  /** A recorded answer keeps the rows, the replay and the live state in step. */
  lemma {:induction false} AnswerKept(c: Setup, env: Moment, w: World, f: nat, st: Live, answer: Answer)
    requires ValidSetup(c) && DbOk(c, w, f) && LiveOk(c, w, f, st) && st.served.Some?
    requires answer.Ranked? ==> |answer.options| > 0
    requires env.now < w.row.expiresAt
    requires ApplyAnswer(c, env, w, st, f, st.served.value, answer).Ok?
    ensures var (w1, st1) := ApplyAnswer(c, env, w, st, f, st.served.value, answer).value;
      && DbOk(c, w1, f) && LiveOk(c, w1, f, st1)
      && st1.served.None? && st1.modules[f].status.InProgress?
      && st1.modules[f].config == st.modules[f].config && st1.modules[f].deadlineAt == st.modules[f].deadlineAt
  {
    hide ApplyAnswer, Replay, ReplayAnswer, RowOk, ResultsOk, Mirrors, Fits, Answered;
    LiveStatus(c, w, f, st);
    var row, m1 := AnswerRow(c, env, w, f, st, answer);
    LogRows(c, w.responses, w.row.expiresAt);
    RowKept(c, w, f, row);
    LiveKept(c, w, f, st, row, m1);
  }

  // ── Closing a module ─────────────────────────────────────────────────────

  /** The result of a live module, however it is closed, agrees with the replayed module. */
  lemma {:induction false} MirrorsSameScores(c: Setup, r: ModuleRun, m: ModuleRun, shown: Option<QuestionId>)
    requires Mirrors(c, r, m, shown)
    ensures SameScores(c.scoring, ResultOf(c.scoring, m), r)
  {
    Round2Facts(m.ability);
  }

  lemma {:induction false} ClosedRows(c: Setup, w: World, f: nat, result: ModuleResult)
    requires ValidSetup(c) && DbOk(c, w, f) && f < |c.configs|
    requires ResultReasonOk(c.configs[f], result)
    requires SameScores(c.scoring, result, Replay(c, w.responses)[f])
    ensures DbOk(c, w.(results := w.results[c.configs[f].moduleId := result]), f + 1)
  {
    hide Replay, SameScores, RowOk;
    var w1 := w.(results := w.results[c.configs[f].moduleId := result]);
    assert ResultsOk(c, w1, f + 1);
  }

  lemma {:induction false} ClosedLive(c: Setup, w: World, f: nat, st: Live, m: ModuleRun)
    requires ValidSetup(c) && DbOk(c, w, f) && LiveOk(c, w, f, st) && f < |c.configs| && st.served.None?
    requires m == st.modules[f].(status := Completed, completedAt := m.completedAt, stopReason := m.stopReason)
    ensures LiveOk(c, w.(results := w.results[c.configs[f].moduleId := ResultOf(c.scoring, m)]), f + 1,
                   st.(modules := st.modules[f := m], current := f + 1))
  {
    hide Replay, Mirrors, DbOk, ResultOf;
    forall i | 0 <= i < |c.configs|
      ensures Mirrors(c, Replay(c, w.responses)[i], st.modules[f := m][i], None)
              && StatusOk(w.(results := w.results[c.configs[f].moduleId := ResultOf(c.scoring, m)]),
                          st.modules[f := m][i], i, f + 1)
    {
      assert Mirrors(c, Replay(c, w.responses)[i], st.modules[i], ShownIn(st, i)) && StatusOk(w, st.modules[i], i, f);
      ClosedModule(c, w, f, st.modules[i], i, m);
    }
  }

  /** Closing module `f` keeps every module in step with the log, and where it should be for the next index. */
  lemma {:induction false} ClosedModule(c: Setup, w: World, f: nat, old_: ModuleRun, i: nat, m: ModuleRun)
    requires ValidSetup(c) && f < |c.configs| && i < |c.configs|
    requires Mirrors(c, Replay(c, w.responses)[i], old_, None) && StatusOk(w, old_, i, f)
    requires i == f ==>
      m == old_.(status := Completed, completedAt := m.completedAt, stopReason := m.stopReason)
    ensures var m1 := if i == f then m else old_;
      && Mirrors(c, Replay(c, w.responses)[i], m1, None)
      && (i == f ==> m.config == c.configs[f])
      && StatusOk(w.(results := w.results[c.configs[f].moduleId := ResultOf(c.scoring, m)]), m1, i, f + 1)
  {
    hide Replay;
    ReplayConfig(c, w.responses, i);
  }

  /** The engine's reasons: time first, then the length, then the pool. */
  predicate ReasonFor(m: ModuleRun, now: int, reason: StopReason) {
    match reason
    case TimeExpired => TimedOut(m, now)
    case MaxQuestions => m.answered == m.config.questionCount && !TimedOut(m, now)
    case _ => m.answered < m.config.questionCount && !TimedOut(m, now)
  }

  lemma {:induction false} ReasonOfStep(scoring: Scoring, m: ModuleRun, now: int, select: ModuleRun -> Option<QuestionId>)
    requires m.answered <= m.config.questionCount && NextStepFor(scoring, m, now, select).ModuleComplete?
    ensures ReasonFor(m, now, NextStepFor(scoring, m, now, select).reason)
  {
  }

  /** Closing the current module, with nothing left on screen, moves the session one module on. */
  lemma {:induction false} CloseKept(c: Setup, now: int, w: World, f: nat, st: Live, reason: StopReason)
    requires ValidSetup(c) && DbOk(c, w, f) && LiveOk(c, w, f, st) && f < |c.configs| && st.served.None?
    requires st.modules[f].status.InProgress? && ReasonFor(st.modules[f], now, reason)
    ensures var m := st.modules[f].(status := Completed, completedAt := Some(now), stopReason := Some(reason));
      var w1 := w.(results := w.results[m.config.moduleId := ResultOf(c.scoring, m)]);
      && DbOk(c, w1, f + 1)
      && LiveOk(c, w1, f + 1, st.(modules := st.modules[f := m], current := f + 1))
  {
    var m := st.modules[f].(status := Completed, completedAt := Some(now), stopReason := Some(reason));
    assert Mirrors(c, Replay(c, w.responses)[f], st.modules[f], ShownIn(st, f)) && StatusOk(w, st.modules[f], f, f);
    MirrorsSameScores(c, Replay(c, w.responses)[f], m, None);
    ReplayConfig(c, w.responses, f);
    ClosedRows(c, w, f, ResultOf(c.scoring, m));
    ClosedLive(c, w, f, st, m);
  }

  lemma {:induction false} CompleteKept(c: Setup, env: Moment, w: World, f: nat, st: Live, reason: StopReason)
    requires ValidSetup(c) && DbOk(c, w, f) && LiveOk(c, w, f, st) && f < |c.configs|
    requires st.modules[f].status.InProgress? && env.now < w.row.expiresAt
    requires ReasonFor(st.modules[f], env.now, reason) && (st.served.Some? ==> reason.TimeExpired?)
    ensures CompleteModule(c, env, w, st, f, reason).Ok?
    ensures var (w1, st1) := CompleteModule(c, env, w, st, f, reason).value;
      && DbOk(c, w1, f + 1) && LiveOk(c, w1, f + 1, st1.(current := f + 1))
  {
    hide ApplyAnswer, DbOk, LiveOk, ResultOf;
    LiveFacts(c, w, f, st);
    if st.served.Some? {
      UnansweredAccepted(c, env, w, f, st);
      AnswerKept(c, env, w, f, st, Unanswered);
      var (w1, st1) := ApplyAnswer(c, env, w, st, f, st.served.value, Unanswered).value;
      CloseKept(c, env.now, w1, f, st1, reason);
    } else {
      CloseKept(c, env.now, w, f, st, reason);
    }
  }

  /** Putting a fitting, unseen question on screen. */
  lemma {:induction false} ServeKept(c: Setup, env: Moment, w: World, f: nat, st: Live, id: QuestionId)
    requires ValidSetup(c) && LiveOk(c, w, f, st) && f < |c.configs| && st.served.None?
    requires st.modules[f].status.InProgress? && st.modules[f].answered < c.configs[f].questionCount
    requires Fits(c, st.modules[f].config, id) && id !in st.modules[f].seen
    ensures LiveOk(c, w, f, Serve(c, env, st, id))
  {
    ReplayConfig(c, w.responses, f);
    var st1 := Serve(c, env, st, id);
    forall i | 0 <= i < |c.configs|
      ensures Mirrors(c, Replay(c, w.responses)[i], st1.modules[i], ShownIn(st1, i))
      ensures StatusOk(w, st1.modules[i], i, f)
    {
      assert Mirrors(c, Replay(c, w.responses)[i], st.modules[i], ShownIn(st, i)) && StatusOk(w, st.modules[i], i, f);
    }
  }

  // ── Finishing ────────────────────────────────────────────────────────────

  /** Every module gets its row, and no other row changes. */
  lemma {:induction false} PersistAllFacts(scoring: Scoring, ms: seq<ModuleRun>, results: map<ModuleId, ModuleResult>)
    requires forall i, j :: 0 <= i < j < |ms| ==> ms[i].config.moduleId != ms[j].config.moduleId
    ensures forall i :: 0 <= i < |ms| ==>
      && ms[i].config.moduleId in PersistAll(scoring, ms, results)
      && PersistAll(scoring, ms, results)[ms[i].config.moduleId] == ResultOf(scoring, ms[i])
    ensures forall id :: id in PersistAll(scoring, ms, results) ==>
      id in results || exists i :: 0 <= i < |ms| && ms[i].config.moduleId == id
  {
    if ms != [] {
      PersistAllFacts(scoring, ms[..|ms| - 1], results);
    }
  }

  lemma {:induction false} SeenCount(c: Setup, w: World, f: nat, st: Live, i: nat)
    requires ValidSetup(c) && LiveOk(c, w, f, st) && RowsOk(c, w.responses) && i < |c.configs|
    ensures |st.modules[i].seen| <= Replay(c, w.responses)[i].answered + (if i == f then 1 else 0)
  {
    hide Replay, Fits, StatusOk;
    ReplayFacts(c, w.responses);
    assert Mirrors(c, Replay(c, w.responses)[i], st.modules[i], ShownIn(st, i));
  }

  lemma {:induction false} SumSeenBound(c: Setup, w: World, f: nat, st: Live, ms: seq<ModuleRun>, n: nat)
    requires ValidSetup(c) && LiveOk(c, w, f, st) && RowsOk(c, w.responses)
    requires n <= |c.configs| == |ms| == |st.modules|
    requires forall i :: 0 <= i < |ms| ==> ms[i].seen == st.modules[i].seen
    ensures SumSeen(ms, n) <= SumAnswered(Replay(c, w.responses), n) + (if f < n then 1 else 0)
  {
    hide LiveOk, RowsOk, Replay;
    if n > 0 {
      SumSeenBound(c, w, f, st, ms, n - 1);
      SeenCount(c, w, f, st, n - 1);
    }
  }

  /** What closing the session leaves of each module. */
  lemma {:induction false} CutOffModule(c: Setup, now: int, w: World, f: nat, st: Live, i: nat)
    requires ValidSetup(c) && DbOk(c, w, f) && LiveOk(c, w, f, st) && i < |c.configs| && RowsOk(c, w.responses)
    ensures var m := CutOff(st.modules[i], now);
      && m.config == c.configs[i]
      && m.seen == st.modules[i].seen
      && m.answered == Replay(c, w.responses)[i].answered <= |m.seen|
      && SameScores(c.scoring, ResultOf(c.scoring, m), Replay(c, w.responses)[i])
      && (m.status.Pending? ==> m.answered == 0 && m.completedAt.None?)
      && FinalReason(c.configs[i], ResultOf(c.scoring, m))
  {
    hide Replay, RowOk, Fits, LogOk;
    ReplayFacts(c, w.responses);
    assert Mirrors(c, Replay(c, w.responses)[i], st.modules[i], ShownIn(st, i)) && StatusOk(w, st.modules[i], i, f);
    assert i < f ==> SameScores(c.scoring, w.results[c.configs[i].moduleId], Replay(c, w.responses)[i]);
    MirrorsSameScores(c, Replay(c, w.responses)[i], CutOff(st.modules[i], now), ShownIn(st, i));
  }

  /** Closing a running session gives a finished one with a row for every module. */
  lemma {:induction false} FinalizeKept(c: Setup, now: int, w: World, f: nat, st: Live, status: SessionStatus)
    requires ValidSetup(c) && DbOk(c, w, f) && LiveOk(c, w, f, st)
    requires !status.SessionInProgress?
    ensures FinishedOk(c, Finalize(c, now, w, st, status))
  {
    var ms := CutOffAll(st.modules, now);
    LogRows(c, w.responses, w.row.expiresAt);
    forall i | 0 <= i < |c.configs|
      ensures ms[i].config == c.configs[i] && ms[i].seen == st.modules[i].seen
      ensures ms[i].answered == Replay(c, w.responses)[i].answered <= |ms[i].seen|
      ensures SameScores(c.scoring, ResultOf(c.scoring, ms[i]), Replay(c, w.responses)[i])
      ensures FinalReason(c.configs[i], ResultOf(c.scoring, ms[i]))
      ensures ms[i].status.Pending? ==> ms[i].answered == 0 && ms[i].completedAt.None?
    {
      CutOffModule(c, now, w, f, st, i);
    }
    FinishedRows(c, now, w, f, st, status, ms);
  }

  lemma {:induction false} FinishedRows(c: Setup, now: int, w: World, f: nat, st: Live, status: SessionStatus,
                                        ms: seq<ModuleRun>)
    requires ValidSetup(c) && DbOk(c, w, f) && LiveOk(c, w, f, st) && RowsOk(c, w.responses)
    requires !status.SessionInProgress? && ms == CutOffAll(st.modules, now)
    requires forall i :: 0 <= i < |c.configs| ==>
      && ms[i].config == c.configs[i] && ms[i].seen == st.modules[i].seen
      && ms[i].answered == Replay(c, w.responses)[i].answered <= |ms[i].seen|
      && SameScores(c.scoring, ResultOf(c.scoring, ms[i]), Replay(c, w.responses)[i])
      && FinalReason(c.configs[i], ResultOf(c.scoring, ms[i]))
      && (ms[i].status.Pending? ==> ms[i].answered == 0 && ms[i].completedAt.None?)
    ensures FinishedOk(c, Finalize(c, now, w, st, status))
  {
    hide FinishedLiveOk, Replay, LogOk, SameScores, Mirrors, StatusOk;
    AllPersisted(c, ms, w.results);
    FinalLive(c, now, w, f, st, status, ms);
  }

  lemma {:induction false} FinalLive(c: Setup, now: int, w: World, f: nat, st: Live, status: SessionStatus,
                                     ms: seq<ModuleRun>)
    requires ValidSetup(c) && DbOk(c, w, f) && LiveOk(c, w, f, st) && RowsOk(c, w.responses)
    requires !status.SessionInProgress? && ms == CutOffAll(st.modules, now)
    requires forall i :: 0 <= i < |c.configs| ==>
      && ms[i].config == c.configs[i] && ms[i].seen == st.modules[i].seen
      && ms[i].answered == Replay(c, w.responses)[i].answered <= |ms[i].seen|
      && (ms[i].status.Pending? ==> ms[i].answered == 0 && ms[i].completedAt.None?)
    ensures var w1 := Finalize(c, now, w, st, status); FinishedLiveOk(c, w1, w1.store.value)
  {
    hide Replay, DbOk, LiveOk, RowsOk, PersistAll, ResultOf, CutOff, KnownModule, SumSeen, SumAnswered;
    DbFacts(c, w, f);
    LiveFacts(c, w, f, st);
    AllPersisted(c, ms, w.results);
    SumSeenBound(c, w, f, st, ms, |ms|);
    ReplayFacts(c, w.responses);
    var w1 := Finalize(c, now, w, st, status);
    forall i | 0 <= i < |c.configs| && ms[i].status.Pending?
      ensures !Closed(w1.results, c.configs[i].moduleId)
    {
      PendingNotClosed(c.scoring, ms[i], w1.results);
    }
  }

  lemma {:induction false} PendingNotClosed(scoring: Scoring, m: ModuleRun, results: map<ModuleId, ModuleResult>)
    requires m.completedAt.None?
    requires m.config.moduleId in results && results[m.config.moduleId] == ResultOf(scoring, m)
    ensures !Closed(results, m.config.moduleId)
  {
  }

  /** One row for each configured module, and rows for nothing else. */
  lemma {:induction false} AllPersisted(c: Setup, ms: seq<ModuleRun>, results: map<ModuleId, ModuleResult>)
    requires ValidSetup(c) && |ms| == |c.configs|
    requires forall i :: 0 <= i < |c.configs| ==> ms[i].config == c.configs[i]
    requires forall id :: id in results ==> KnownModule(c, id)
    ensures forall i :: 0 <= i < |c.configs| ==>
      && c.configs[i].moduleId in PersistAll(c.scoring, ms, results)
      && PersistAll(c.scoring, ms, results)[c.configs[i].moduleId] == ResultOf(c.scoring, ms[i])
    ensures forall id :: id in PersistAll(c.scoring, ms, results) ==> KnownModule(c, id)
  {
    PersistAllFacts(c.scoring, ms, results);
    forall id | id in PersistAll(c.scoring, ms, results)
      ensures KnownModule(c, id)
    {
      if id !in results {
        var i :| 0 <= i < |ms| && ms[i].config.moduleId == id;
        assert c.configs[i].moduleId == id;
      }
    }
  }

  // ── Driving a running session ────────────────────────────────────────────

  /** A question is on screen exactly when the current module is running. */
  predicate ScreenMatchesModule(w: World) {
    w.store.Some? && w.row.status.SessionInProgress? ==>
      var st := w.store.value;
      st.current < |st.modules| && (st.served.Some? <==> st.modules[st.current].status.InProgress?)
  }

  /** The rows and the mirrored state do not depend on whether the store holds the blob. */
  lemma {:induction false} StoreFree(c: Setup, w: World, f: nat, store: Option<Live>)
    ensures DbOk(c, w.(store := store), f) <==> DbOk(c, w, f)
    ensures forall st :: LiveOk(c, w.(store := store), f, st) <==> LiveOk(c, w, f, st)
  {
  }

  lemma {:induction false} DbFacts(c: Setup, w: World, f: nat)
    requires DbOk(c, w, f)
    ensures f <= |c.configs| && w.row.status.SessionInProgress?
    ensures forall id :: id in w.results ==> KnownModule(c, id)
    ensures f < |c.configs| && (w.store.Some? ==> LiveOk(c, w, f, w.store.value)) ==> RunningOk(c, w, f)
  {
  }

  /** What the mirrored state says about its own position and screen. */
  lemma {:induction false} LiveFacts(c: Setup, w: World, f: nat, st: Live)
    requires LiveOk(c, w, f, st) && f <= |c.configs|
    ensures !st.finished && |st.modules| == |c.configs| && st.current == f && st.expiresAt == w.row.expiresAt
    ensures st.candidateId == w.row.candidateId && st.startedAt == w.row.startedAt && st.answeredTotal == |w.responses|
    ensures st.served.Some? ==> f < |c.configs|
    ensures f < |c.configs| ==>
      var m := st.modules[f];
      && m.config == c.configs[f] && !m.status.Completed?
      && (m.status.InProgress? ==> m.deadlineAt.Some?)
      && (st.served.Some? ==>
            && m.status.InProgress? && st.served.value.moduleId == m.config.moduleId
            && st.served.value.questionId in c.bank)
  {
    if f < |c.configs| {
      assert Mirrors(c, Replay(c, w.responses)[f], st.modules[f], ShownIn(st, f));
      assert StatusOk(w, st.modules[f], f, f);
      ReplayConfig(c, w.responses, f);
    }
  }

  /** The live modules are the configured ones. */
  lemma {:induction false} ConfigsMatch(c: Setup, w: World, f: nat, st: Live)
    requires LiveOk(c, w, f, st)
    ensures forall i :: 0 <= i < |c.configs| ==> st.modules[i].config == c.configs[i]
  {
    forall i | 0 <= i < |c.configs|
      ensures st.modules[i].config == c.configs[i]
    {
      assert Mirrors(c, Replay(c, w.responses)[i], st.modules[i], ShownIn(st, i));
      ReplayConfig(c, w.responses, i);
    }
  }

  /** Serving in the running current module with nothing on screen. */
  lemma {:induction false} ServedNext(c: Setup, env: Moment, w: World, f: nat, st: Live, id: QuestionId)
    requires ValidSetup(c) && SelectorOk(c, env) && DbOk(c, w, f) && LiveOk(c, w, f, st)
    requires f < |c.configs| && st.modules[f].status.InProgress?
    requires st.served.Some? ==> TimedOut(st.modules[f], env.now)
    requires NextStepFor(c.scoring, st.modules[f], env.now, env.select) == ServeQuestion(id)
    ensures id in c.bank && st.served.None?
    ensures var w1 := w.(store := Some(Serve(c, env, st, id))); RunningOk(c, w1, f) && ScreenMatchesModule(w1)
  {
    LiveFacts(c, w, f, st);
    ServeKept(c, env, w, f, st, id);
    StoreFree(c, w, f, Some(Serve(c, env, st, id)));
  }

  lemma {:induction false} AnsweredWithin(c: Setup, w: World, f: nat, st: Live)
    requires DbOk(c, w, f) && LiveOk(c, w, f, st) && f < |c.configs|
    ensures st.modules[f].config == c.configs[f] && st.modules[f].answered <= c.configs[f].questionCount
  {
    assert Mirrors(c, Replay(c, w.responses)[f], st.modules[f], ShownIn(st, f));
    ReplayConfig(c, w.responses, f);
  }

  /** Driving the session on never fails, keeps the invariant, and leaves the screen in step with the module. */
  lemma {:induction false} AdvanceKept(c: Setup, env: Moment, w: World, f: nat, st: Live)
    requires ValidSetup(c) && SelectorOk(c, env)
    requires DbOk(c, w, f) && LiveOk(c, w, f, st) && w.store == Some(st)
    ensures var (w1, reply) := Advance(c, env, w, st);
      Inv(c, w1) && reply.Ok? && ScreenMatchesModule(w1)
    decreases |c.configs| - f
  {
    hide DbOk, LiveOk, RunningOk, FinishedOk, Finalize, Serve, CompleteModule, SelectorOk, Advance, Fits;
    DbFacts(c, w, f);
    LiveFacts(c, w, f, st);
    if env.now >= st.expiresAt || f == |c.configs| {
      AdvanceEnds(c, env, w, st);
      FinalizeKept(c, env.now, w, f, st, if env.now >= st.expiresAt then SessionAutoSubmitted else SessionCompleted);
    } else {
      var m := st.modules[f];
      if m.status.Pending? || (st.served.Some? && !TimedOut(m, env.now)) {
        AdvanceRests(c, env, w, st);
      } else {
        AdvanceMoves(c, env, w, st);
        match NextStepFor(c.scoring, m, env.now, env.select)
        case ServeQuestion(id) => ServedNext(c, env, w, f, st, id);
        case ModuleComplete(reason) =>
          AnsweredWithin(c, w, f, st);
          ReasonOfStep(c.scoring, m, env.now, env.select);
          CompleteKept(c, env, w, f, st, reason);
          var (w1, st1) := CompleteModule(c, env, w, st, f, reason).value;
          var next := st1.(current := f + 1);
          StoreFree(c, w1, f + 1, Some(next));
          AdvanceKept(c, env, w1.(store := Some(next)), f + 1, next);
      }
    }
  }

  // ── Starting a module ────────────────────────────────────────────────────

  /** While every module is pending, nothing has been answered and no module has closed. */
  lemma {:induction false} AllPendingMeansUntouched(c: Setup, w: World, f: nat, st: Live)
    requires ValidSetup(c) && DbOk(c, w, f) && LiveOk(c, w, f, st) && AllPending(st.modules)
    ensures w.responses == [] && f == 0
    ensures forall i :: 0 <= i < |c.configs| ==> !Closed(w.results, c.configs[i].moduleId)
  {
    LogRows(c, w.responses, w.row.expiresAt);
    ReplayFacts(c, w.responses);
    forall i | 0 <= i < |c.configs|
      ensures Replay(c, w.responses)[i].answered == 0 && i >= f
    {
      assert st.modules[i] in st.modules;
      assert Mirrors(c, Replay(c, w.responses)[i], st.modules[i], ShownIn(st, i)) && StatusOk(w, st.modules[i], i, f);
    }
    SumAnsweredZero(Replay(c, w.responses), |c.configs|);
    assert Replay(c, w.responses)[0].answered == 0;
  }

  lemma {:induction false} BeginMirrors(c: Setup, r: ModuleRun, m: ModuleRun, shown: Option<QuestionId>, now: int)
    requires Mirrors(c, r, m, shown)
    ensures Mirrors(c, r, BeginModule(m, now), shown)
  {
  }

  /** A session with no answers and no closed modules may have its clocks moved. */
  lemma {:induction false} RebasedRows(c: Setup, w: World, startedAt: int, expiresAt: int)
    requires DbOk(c, w, 0) && w.responses == []
    ensures DbOk(c, w.(row := w.row.(startedAt := startedAt, expiresAt := expiresAt)), 0)
  {
    hide Replay, SameScores, Closed, RowOk;
  }

  /** Beginning the current module, with the session's clocks wherever the row has them. */
  lemma {:induction false} BegunLive(c: Setup, now: int, w: World, f: nat, st: Live, row: SessionRow)
    requires ValidSetup(c) && LiveOk(c, w, f, st)
    requires f < |c.configs| && st.modules[f].status.Pending? && row.candidateId == w.row.candidateId
    ensures LiveOk(c, w.(row := row), f,
                   st.(modules := st.modules[f := BeginModule(st.modules[f], now)],
                       startedAt := row.startedAt, expiresAt := row.expiresAt))
  {
    hide Replay, Mirrors, Fits;
    BeginMirrors(c, Replay(c, w.responses)[f], st.modules[f], ShownIn(st, f), now);
    var st1 := st.(modules := st.modules[f := BeginModule(st.modules[f], now)],
                   startedAt := row.startedAt, expiresAt := row.expiresAt);
    forall i | 0 <= i < |c.configs|
      ensures Mirrors(c, Replay(c, w.responses)[i], st1.modules[i], ShownIn(st1, i))
      ensures StatusOk(w.(row := row), st1.modules[i], i, f)
    {
      assert Mirrors(c, Replay(c, w.responses)[i], st.modules[i], ShownIn(st, i)) && StatusOk(w, st.modules[i], i, f);
    }
  }

  /** Starting the current module, with the session's deadline rebased when it is the first. */
  lemma {:induction false} StartKept(c: Setup, now: int, w: World, f: nat, st: Live)
    requires ValidSetup(c) && DbOk(c, w, f) && LiveOk(c, w, f, st)
    requires f < |c.configs| && st.current < |st.modules| && st.modules[st.current].status.Pending?
    ensures var (w1, st1) := StartCurrent(c, now, w, st);
      DbOk(c, w1, f) && LiveOk(c, w1, f, st1) && w1.store == Some(st1)
  {
    hide DbOk, LiveOk;
    LiveFacts(c, w, f, st);
    var (w1, st1) := StartCurrent(c, now, w, st);
    if AllPending(st.modules) {
      AllPendingMeansUntouched(c, w, f, st);
      RebasedRows(c, w, st1.startedAt, st1.expiresAt);
    }
    BegunLive(c, now, w, f, st, w1.row);
    StoreFree(c, w.(row := w1.row), f, Some(st1));
  }

  // ── Finished sessions ────────────────────────────────────────────────────

  lemma {:induction false} FinishedPendingMeansEmpty(c: Setup, w: World, st: Live)
    requires ValidSetup(c) && FinishedOk(c, w) && FinishedLiveOk(c, w, st) && AllPending(st.modules)
    ensures w.responses == []
    ensures forall i :: 0 <= i < |c.configs| ==> !Closed(w.results, c.configs[i].moduleId)
  {
    LogRows(c, w.responses, w.row.expiresAt);
    ReplayFacts(c, w.responses);
    forall i | 0 <= i < |c.configs|
      ensures Replay(c, w.responses)[i].answered == 0 && !Closed(w.results, c.configs[i].moduleId)
    {
      assert st.modules[i] in st.modules;
    }
    SumAnsweredZero(Replay(c, w.responses), |c.configs|);
  }

  lemma {:induction false} SumSeenUpdate(ms: seq<ModuleRun>, i: nat, m: ModuleRun, n: nat)
    requires i < |ms| && n <= |ms| && m.seen == ms[i].seen
    ensures SumSeen(ms[i := m], n) == SumSeen(ms, n)
  {
    if n > 0 {
      SumSeenUpdate(ms, i, m, n - 1);
    }
  }

  /** Nothing that a recruiter reads differs between two states of a finished session. */
  predicate SameRecord(w: World, w1: World) {
    && w1.row.status == w.row.status && w1.row.submittedAt == w.row.submittedAt
    && w1.responses == w.responses && w1.results == w.results
  }

  lemma {:induction false} FinishedReclocked(c: Setup, w: World, row: SessionRow, st: Live)
    requires FinishedOk(c, w) && FinishedLiveOk(c, w.(row := row), st)
    requires row == w.row.(startedAt := row.startedAt, expiresAt := row.expiresAt)
    requires row.expiresAt == w.row.expiresAt || w.responses == []
    ensures FinishedOk(c, w.(row := row, store := Some(st)))
  {
    hide Replay, SameScores, RowOk;
    assert FinishedLiveOk(c, w.(row := row, store := Some(st)), st);
  }

  lemma {:induction false} FinishedBegun(c: Setup, now: int, w: World, st: Live, row: SessionRow)
    requires FinishedLiveOk(c, w, st) && row.candidateId == w.row.candidateId
    requires st.current < |st.modules| && st.modules[st.current].status.Pending?
    ensures FinishedLiveOk(c, w.(row := row),
                           st.(modules := st.modules[st.current := BeginModule(st.modules[st.current], now)],
                               startedAt := row.startedAt, expiresAt := row.expiresAt))
  {
    hide Replay;
    SumSeenUpdate(st.modules, st.current, BeginModule(st.modules[st.current], now), |st.modules|);
  }

  /** The start-module call has no finished guard, but on a finished session it only moves clocks. */
  lemma {:induction false} FinishedStart(c: Setup, now: int, w: World, st: Live)
    requires ValidSetup(c) && FinishedOk(c, w) && FinishedLiveOk(c, w, st)
    requires st.current < |st.modules| && st.modules[st.current].status.Pending?
    ensures var (w1, st1) := StartCurrent(c, now, w, st);
      && FinishedOk(c, w1) && st1.finished && SameRecord(w, w1)
  {
    hide FinishedOk, FinishedLiveOk;
    FinishedLiveClocks(c, w, st);
    if AllPending(st.modules) {
      FinishedPendingMeansEmpty(c, w, st);
    }
    var (w1, st1) := StartCurrent(c, now, w, st);
    FinishedBegun(c, now, w, st, w1.row);
    FinishedReclocked(c, w, w1.row, st1);
  }

  lemma {:induction false} FinishedLiveClocks(c: Setup, w: World, st: Live)
    requires FinishedLiveOk(c, w, st)
    ensures st.startedAt == w.row.startedAt && st.expiresAt == w.row.expiresAt && st.finished
  {
  }

  lemma {:induction false} SumSeenOfSettled(c: Setup, log: seq<Response>, ms: seq<ModuleRun>, n: nat)
    requires ValidSetup(c) && RowsOk(c, log) && n <= |ms| == |c.configs|
    requires forall i :: 0 <= i < |ms| ==> ms[i].seen == Replay(c, log)[i].seen
    ensures SumSeen(ms, n) == SumAnswered(Replay(c, log), n)
  {
    hide Replay, RowsOk;
    ReplayFacts(c, log);
    if n > 0 {
      SumSeenOfSettled(c, log, ms, n - 1);
    }
  }

  lemma {:induction false} SettledFacts(c: Setup, r: ModuleRun, config: ModuleConfig,
                                        results: map<ModuleId, ModuleResult>, now: int)
    requires FromLog(r, config)
    ensures var m := Settle(r, results, now);
      && m.config == config && m.answered == r.answered == |m.seen| && m.seen == r.seen
      && (m.status.Pending? ==> m.answered == 0 && !Closed(results, config.moduleId))
  {
  }

  lemma {:induction false} FinishedRehydrate(c: Setup, w: World, now: int)
    requires ValidSetup(c) && FinishedOk(c, w)
    ensures FinishedLiveOk(c, w, Rehydrate(c, now, w))
  {
    hide Replay, Settle, Closed, FromLog, RowOk, SameScores;
    LogRows(c, w.responses, w.row.expiresAt);
    ReplayFacts(c, w.responses);
    var st := Rehydrate(c, now, w);
    forall i | 0 <= i < |c.configs|
      ensures st.modules[i].config == c.configs[i] && st.modules[i].seen == Replay(c, w.responses)[i].seen
      ensures st.modules[i].answered == Replay(c, w.responses)[i].answered == |st.modules[i].seen|
      ensures st.modules[i].status.Pending? ==>
                st.modules[i].answered == 0 && !Closed(w.results, c.configs[i].moduleId)
    {
      SettledFacts(c, Replay(c, w.responses)[i], c.configs[i], w.results, now);
    }
    SumSeenOfSettled(c, w.responses, st.modules, |c.configs|);
  }

  lemma {:induction false} FinishedLoaded(c: Setup, w: World, now: int)
    requires ValidSetup(c) && FinishedOk(c, w)
    ensures var (w1, st) := Loaded(c, now, w);
      && FinishedOk(c, w1) && FinishedLiveOk(c, w1, st) && SameRecord(w, w1) && w1.store == Some(st)
      && st.finished && !w1.row.status.SessionInProgress?
  {
    hide Rehydrate, LogOk, SameScores;
    FinishedRehydrate(c, w, now);
    var (w1, st) := Loaded(c, now, w);
    assert FinishedLiveOk(c, w1, st);
  }

  /** No request changes the record of a finished session. */
  lemma {:induction false} FinishedApply(c: Setup, w: World, event: Event)
    requires ValidSetup(c) && FinishedOk(c, w)
    ensures var w1 := Apply(c, w, event).0; FinishedOk(c, w1) && SameRecord(w, w1)
  {
    hide FinishedOk, FinishedLiveOk, Advance, Loaded, StartCurrent, ApplyAnswer;
    var now := event.moment.now;
    FinishedLoaded(c, w, now);
    FinishedForgets(c, w);
    var (w1, st) := Loaded(c, now, w);
    AdvanceFinished(c, event.moment, w1, st);
    if st.current < |st.modules| && st.modules[st.current].status.Pending? {
      FinishedStart(c, now, w1, st);
      var (w2, st2) := StartCurrent(c, now, w1, st);
      AdvanceFinished(c, event.moment, w2, st2);
    }
  }

  lemma {:induction false} FinishedForgets(c: Setup, w: World)
    requires FinishedOk(c, w)
    ensures FinishedOk(c, w.(store := None)) && !w.row.status.SessionInProgress?
  {
  }

  // ── Every request ────────────────────────────────────────────────────────

  lemma {:induction false} LoadedOk(c: Setup, w: World, f: nat, now: int)
    requires ValidSetup(c) && RunningOk(c, w, f)
    ensures var (w1, st) := Loaded(c, now, w);
      && DbOk(c, w1, f) && LiveOk(c, w1, f, st) && w1 == w.(store := Some(st)) && RunningOk(c, w1, f)
      && w1.row.status.SessionInProgress? && f < |c.configs|
  {
    hide LogOk, ResultsOk, LiveOk, Rehydrate;
    assert DbOk(c, w, f);
    RehydrateOk(c, w, f, now);
    StoreFree(c, w, f, Some(Loaded(c, now, w).1));
  }

  lemma {:induction false} SubmitKept(c: Setup, env: Moment, w: World, f: nat, id: QuestionId, answer: Answer)
    requires ValidSetup(c) && SelectorOk(c, env) && RunningOk(c, w, f)
    requires answer.Ranked? ==> |answer.options| > 0
    ensures Inv(c, Submit(c, env, w, id, answer).0)
  {
    hide DbOk, LiveOk, RunningOk, FinishedOk, Loaded, Advance, Finalize, ApplyAnswer, SelectorOk;
    LoadedOk(c, w, f, env.now);
    var (w1, st) := Loaded(c, env.now, w);
    DbFacts(c, w1, f);
    LiveFacts(c, w1, f, st);
    if env.now >= st.expiresAt {
      FinalizeKept(c, env.now, w1, f, st, SessionAutoSubmitted);
    } else if st.served.Some? && st.served.value.questionId == id {
      AdvanceKept(c, env, w1, f, st);
      if ApplyAnswer(c, env, w1, st, f, st.served.value, answer).Ok? {
        AnswerKept(c, env, w1, f, st, answer);
        var (w2, st2) := ApplyAnswer(c, env, w1, st, f, st.served.value, answer).value;
        StoreFree(c, w2, f, Some(st2));
        AdvanceKept(c, env, w2.(store := Some(st2)), f, st2);
      }
    }
  }

  lemma {:induction false} StartModuleKept(c: Setup, env: Moment, w: World, f: nat)
    requires ValidSetup(c) && SelectorOk(c, env) && RunningOk(c, w, f)
    ensures var (w1, reply) := StartCurrentModule(c, env, w);
      Inv(c, w1) && reply.Ok? && ScreenMatchesModule(w1)
  {
    hide DbOk, LiveOk, FinishedOk, Loaded, Advance, StartCurrent, SelectorOk;
    LoadedOk(c, w, f, env.now);
    var (w1, st) := Loaded(c, env.now, w);
    LiveFacts(c, w1, f, st);
    if st.modules[st.current].status.Pending? {
      StartKept(c, env.now, w1, f, st);
      var (w2, st2) := StartCurrent(c, env.now, w1, st);
      AdvanceKept(c, env, w2, f, st2);
    } else {
      AdvanceKept(c, env, w1, f, st);
    }
  }

  /** Every request keeps the invariant. */
  lemma {:induction false} ApplyKept(c: Setup, w: World, event: Event)
    requires ValidSetup(c) && SelectorOk(c, event.moment) && Inv(c, w)
    ensures Inv(c, Apply(c, w, event).0)
  {
    hide DbOk, LiveOk, RunningOk, FinishedOk, Loaded, Advance, Finalize, StartCurrentModule, Submit, SelectorOk;
    if FinishedOk(c, w) {
      FinishedApply(c, w, event);
    } else {
      var f :| RunningOk(c, w, f);
      var env := event.moment;
      LoadedOk(c, w, f, env.now);
      Forgets(c, w, f);
      var (w1, st) := Loaded(c, env.now, w);
      AdvanceKept(c, env, w1, f, st);
      StartModuleKept(c, env, w, f);
      FinalizeKept(c, env.now, w1, f, st, SessionAutoSubmitted);
      if event.request.SubmitAnswer? && ToAnswer(event.request.dto).Ok? {
        SubmitKept(c, env, w, f, event.request.dto.questionId, ToAnswer(event.request.dto).value);
      }
    }
  }

  lemma {:induction false} Forgets(c: Setup, w: World, f: nat)
    requires RunningOk(c, w, f)
    ensures RunningOk(c, w.(store := None), f)
  {
    StoreFree(c, w, f, None);
  }

  /** The invariant holds after every run of requests, losses and rebuilds. */
  lemma {:induction false} RunKept(c: Setup, candidateId: CandidateId, now: int, events: seq<Event>)
    requires ValidSetup(c) && ValidEvents(c, events)
    ensures Inv(c, Run(c, Create(c, candidateId, now), events))
  {
    hide Apply, Inv, SelectorOk;
    if events == [] {
      CreateOk(c, candidateId, now);
    } else {
      RunKept(c, candidateId, now, events[..|events| - 1]);
      assert events[|events| - 1] in events;
      ApplyKept(c, Run(c, Create(c, candidateId, now), events[..|events| - 1]), events[|events| - 1]);
    }
  }
}
