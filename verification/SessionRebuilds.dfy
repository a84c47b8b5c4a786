/**
 * What a rebuild costs a running session: the live estimate between rebuilds as a function of the log, the
 * difference it makes to the information sum, and the start times that only the live state had.
 */
module SessionRebuilds {
  import opened Wrappers
  import opened Rounding
  import opened EngineTypes
  import opened AdaptiveEngine
  import opened SessionRuntime
  import opened SessionReplay
  import opened SessionInvariant
  import opened SessionTheorems

  // ── The live estimate, from the log ──────────────────────────────────────

  function DifficultyOf(r: Response): int {
    if r.difficultyAtServe.Some? then r.difficultyAtServe.value else 0
  }

  /** The estimate after one more row of the module, without rounding it. */
  function EstimateAfter(scoring: Scoring, config: ModuleConfig, estimate: real, answered: nat, r: Response): real {
    if config.scoringType.Objective?
    then scoring.updateAbility(estimate, DifficultyOf(r), r.isCorrect == Some(true), answered)
    else estimate
  }

  /** What scoring a row at the estimate adds to the information sum beyond scoring it at the rounded estimate. */
  function Excess(scoring: Scoring, config: ModuleConfig, estimate: real, r: Response): real {
    if config.scoringType.Objective?
    then scoring.information(estimate, DifficultyOf(r)) - scoring.information(Round2(estimate), DifficultyOf(r))
    else 0.0
  }

  /** The estimate of module `i` after the log, by a live state that was built from the log's first `k` rows. */
  function Estimate(c: Setup, log: seq<Response>, k: nat, i: nat): real
    requires i < |c.configs|
  {
    if |log| <= k then Replay(c, log)[i].ability
    else
      var before, r := log[..|log| - 1], log[|log| - 1];
      if r.moduleId != c.configs[i].moduleId then Estimate(c, before, k, i)
      else EstimateAfter(c.scoring, c.configs[i], Estimate(c, before, k, i), Replay(c, before)[i].answered, r)
  }

  /** The accumulated excess of the rows of module `i` after the first `k`. */
  function Drift(c: Setup, log: seq<Response>, k: nat, i: nat): real
    requires i < |c.configs|
  {
    if |log| <= k then 0.0
    else
      var before, r := log[..|log| - 1], log[|log| - 1];
      if r.moduleId != c.configs[i].moduleId then Drift(c, before, k, i)
      else Drift(c, before, k, i) + Excess(c.scoring, c.configs[i], Estimate(c, before, k, i), r)
  }

  /** The world that the live state was last built from: at the session's creation, or at its latest rebuild. */
  function LastBuilt(c: Setup, w0: World, events: seq<Event>): World {
    if events == [] then w0
    else
      var before := events[..|events| - 1];
      if Run(c, w0, before).store.None? && Run(c, w0, events).store.Some? then Run(c, w0, before)
      else LastBuilt(c, w0, before)
  }

  // ── The live state between rebuilds ──────────────────────────────────────

  /** What live module `i` has that its rows do not say: it depends on the world it was built from. */
  ghost predicate TracksModule(c: Setup, base: World, log: seq<Response>, m: ModuleRun, i: nat)
    requires i < |c.configs|
  {
    && m.ability == Estimate(c, log, |base.responses|, i)
    && m.information == Replay(c, log)[i].information + Drift(c, log, |base.responses|, i)
    && (m.status.Completed? ==> (m.startedAt.None? <==> Closed(base.results, c.configs[i].moduleId)))
    && (m.status.InProgress? ==> m.startedAt.Some?)
    && (Closed(base.results, c.configs[i].moduleId) ==> m.status.Completed?)
  }

  ghost predicate Tracks(c: Setup, base: World, log: seq<Response>, st: Live) {
    && |st.modules| == |c.configs| && |base.responses| <= |log|
    && forall i :: 0 <= i < |c.configs| ==> TracksModule(c, base, log, st.modules[i], i)
  }

  /** One live answer and its row: the estimate moves without rounding, and the sums part by the excess. */
  lemma {:induction false} AnswerExcess(c: Setup, r: ModuleRun, m: ModuleRun, id: QuestionId, answer: Answer,
                                        sequence: nat, difficulty: int, servedAt: int, now: int)
    requires Mirrors(c, r, m, Some(id))
    requires RecordAnswer(c.scoring, m, id, c.bank[id], answer, sequence, difficulty).Ok?
    ensures
      var (m1, outcome) := RecordAnswer(c.scoring, m, id, c.bank[id], answer, sequence, difficulty).value;
      var row := ResponseFor(m.config.moduleId, id, answer, outcome, sequence, servedAt, now);
      var r1 := ReplayAnswer(c.scoring, r, row, c.bank[id]);
      && m1.ability == EstimateAfter(c.scoring, m.config, m.ability, r.answered, row)
      && m1.information - r1.information
         == m.information - r.information + Excess(c.scoring, m.config, m.ability, row)
      && m1.status == m.status && m1.startedAt == m.startedAt
  {
  }

  lemma {:induction false} EstimateNext(c: Setup, log: seq<Response>, row: Response, k: nat, i: nat)
    requires i < |c.configs| && k <= |log|
    ensures Estimate(c, log + [row], k, i)
            == if row.moduleId != c.configs[i].moduleId then Estimate(c, log, k, i)
               else EstimateAfter(c.scoring, c.configs[i], Estimate(c, log, k, i), Replay(c, log)[i].answered, row)
    ensures Drift(c, log + [row], k, i)
            == if row.moduleId != c.configs[i].moduleId then Drift(c, log, k, i)
               else Drift(c, log, k, i) + Excess(c.scoring, c.configs[i], Estimate(c, log, k, i), row)
  {
    assert (log + [row])[..|log + [row]| - 1] == log;
  }

  /** Recording an answer in module `f` keeps every module tracked. */
  lemma {:induction false} AnswerTracked(c: Setup, env: Moment, base: World, w: World, f: nat, st: Live, answer: Answer)
    requires ValidSetup(c) && DbOk(c, w, f) && LiveOk(c, w, f, st) && st.served.Some?
    requires answer.Ranked? ==> |answer.options| > 0
    requires ApplyAnswer(c, env, w, st, f, st.served.value, answer).Ok?
    requires Tracks(c, base, w.responses, st)
    ensures var (w1, st1) := ApplyAnswer(c, env, w, st, f, st.served.value, answer).value;
      w1.row == w.row && Tracks(c, base, w1.responses, st1)
  {
    hide Replay, ReplayAnswer, Estimate, Drift, RecordAnswer, EstimateAfter, Excess, Closed, RowOk, ResultsOk, Answered;
    var log, served := w.responses, st.served.value;
    var id, m, r := served.questionId, st.modules[f], Replay(c, log)[f];
    assert Mirrors(c, r, m, ShownIn(st, f)) && StatusOk(w, m, f, f);
    ReplayConfig(c, log, f);
    LogRows(c, log, w.row.expiresAt);
    var row, m1 := AnswerRow(c, env, w, f, st, answer);
    AnswerExcess(c, r, m, id, answer, st.answeredTotal + 1, env.difficulty(id), served.servedAt, env.now);
    ReplayAppend(c, log, row, f);
    var (w1, st1) := ApplyAnswer(c, env, w, st, f, served, answer).value;
    assert w1.responses == log + [row] && w1.responses[|log|] == row;
    forall i | 0 <= i < |c.configs|
      ensures TracksModule(c, base, log + [row], st1.modules[i], i)
    {
      assert TracksModule(c, base, log, st.modules[i], i);
      EstimateNext(c, log, row, |base.responses|, i);
    }
  }

  /** Changes to a module that touch neither its sums nor, unless it closes, its standing. */
  ghost predicate SameSums(m: ModuleRun, m1: ModuleRun) {
    && m1.ability == m.ability && m1.information == m.information
    && (m1.status.Completed? ==> m1.startedAt == m.startedAt && !m.status.Pending?)
    && (m1.status.InProgress? ==> m1.startedAt.Some? || (m.status.InProgress? && m1.startedAt == m.startedAt))
    && (m.status.Completed? ==> m1.status.Completed?)
  }

  lemma {:induction false} SumsTracked(c: Setup, base: World, log: seq<Response>, st: Live, st1: Live)
    requires Tracks(c, base, log, st) && |st1.modules| == |st.modules|
    requires forall i :: 0 <= i < |st.modules| ==> SameSums(st.modules[i], st1.modules[i])
    ensures Tracks(c, base, log, st1)
  {
    hide Estimate, Drift, Replay, Closed;
    forall i | 0 <= i < |c.configs|
      ensures TracksModule(c, base, log, st1.modules[i], i)
    {
      assert TracksModule(c, base, log, st.modules[i], i) && SameSums(st.modules[i], st1.modules[i]);
    }
  }

  // ── Driving a session ────────────────────────────────────────────────────

  /** A running session whose live state, if the store has it, was built from `base`. */
  ghost predicate TrackedWorld(c: Setup, base: World, w: World) {
    w.row.status.SessionInProgress? && w.store.Some? ==> Tracks(c, base, w.responses, w.store.value)
  }

  lemma {:induction false} CompleteTracked(c: Setup, env: Moment, base: World, w: World, f: nat, st: Live,
                                           reason: StopReason)
    requires ValidSetup(c) && DbOk(c, w, f) && LiveOk(c, w, f, st) && f < |c.configs|
    requires st.modules[f].status.InProgress? && env.now < w.row.expiresAt
    requires ReasonFor(st.modules[f], env.now, reason) && (st.served.Some? ==> reason.TimeExpired?)
    requires Tracks(c, base, w.responses, st)
    requires CompleteModule(c, env, w, st, f, reason).Ok?
    ensures var (w1, st1) := CompleteModule(c, env, w, st, f, reason).value;
      Tracks(c, base, w1.responses, st1.(current := f + 1))
  {
    hide Tracks, ApplyAnswer, DbOk, LiveOk, ResultOf;
    DbFacts(c, w, f);
    LiveFacts(c, w, f, st);
    if st.served.Some? {
      UnansweredAccepted(c, env, w, f, st);
      AnswerKept(c, env, w, f, st, Unanswered);
      AnswerTracked(c, env, base, w, f, st, Unanswered);
      var (w1, st1) := ApplyAnswer(c, env, w, st, f, st.served.value, Unanswered).value;
      CloseTracked(c, env.now, base, w1, st1, f, reason);
    } else {
      CloseTracked(c, env.now, base, w, st, f, reason);
    }
  }

  lemma {:induction false} CloseTracked(c: Setup, now: int, base: World, w: World, st: Live, f: nat, reason: StopReason)
    requires f < |st.modules| && st.modules[f].status.InProgress? && Tracks(c, base, w.responses, st)
    ensures var (w1, st1) := CloseWith(c, now, w, st, f, reason);
      Tracks(c, base, w1.responses, st1.(current := f + 1))
  {
    hide Tracks, ResultOf;
    SumsTracked(c, base, w.responses, st, CloseWith(c, now, w, st, f, reason).1.(current := f + 1));
  }

  lemma {:induction false} ServeTracked(c: Setup, env: Moment, base: World, log: seq<Response>, st: Live, id: QuestionId)
    requires st.current < |st.modules| && id in c.bank && Tracks(c, base, log, st)
    ensures Tracks(c, base, log, Serve(c, env, st, id))
  {
    hide Tracks;
    SumsTracked(c, base, log, st, Serve(c, env, st, id));
  }

  lemma {:induction false} StartTracked(c: Setup, now: int, base: World, w: World, st: Live)
    requires st.current < |st.modules| && st.modules[st.current].status.Pending? && Tracks(c, base, w.responses, st)
    ensures var (w1, st1) := StartCurrent(c, now, w, st); w1.responses == w.responses && Tracks(c, base, w.responses, st1)
  {
    hide Tracks, AllPending, BudgetSeconds;
    SumsTracked(c, base, w.responses, st, StartCurrent(c, now, w, st).1);
  }

  lemma {:induction false} FinalizedTracked(c: Setup, now: int, base: World, w: World, st: Live, status: SessionStatus)
    requires !status.SessionInProgress? && !st.finished
    ensures TrackedWorld(c, base, Finalize(c, now, w, st, status))
  {
    hide Tracks;
  }

  lemma {:induction false} AdvanceTracked(c: Setup, env: Moment, base: World, w: World, f: nat, st: Live)
    requires ValidSetup(c) && SelectorOk(c, env)
    requires DbOk(c, w, f) && LiveOk(c, w, f, st) && w.store == Some(st)
    requires Tracks(c, base, w.responses, st)
    ensures TrackedWorld(c, base, Advance(c, env, w, st).0)
    decreases |c.configs| - f
  {
    hide DbOk, LiveOk, RunningOk, Tracks, Finalize, Serve, CompleteModule, SelectorOk, Advance, Fits;
    DbFacts(c, w, f);
    LiveFacts(c, w, f, st);
    if env.now >= st.expiresAt || f == |c.configs| {
      AdvanceEnds(c, env, w, st);
      FinalizedTracked(c, env.now, base, w, st, if env.now >= st.expiresAt then SessionAutoSubmitted else SessionCompleted);
    } else {
      var m := st.modules[f];
      if m.status.Pending? || (st.served.Some? && !TimedOut(m, env.now)) {
        AdvanceRests(c, env, w, st);
      } else {
        AdvanceMoves(c, env, w, st);
        match NextStepFor(c.scoring, m, env.now, env.select)
        case ServeQuestion(id) =>
          ServedNext(c, env, w, f, st, id);
          ServeTracked(c, env, base, w.responses, st, id);
        case ModuleComplete(reason) =>
          AnsweredWithin(c, w, f, st);
          ReasonOfStep(c.scoring, m, env.now, env.select);
          CompleteKept(c, env, w, f, st, reason);
          CompleteTracked(c, env, base, w, f, st, reason);
          var (w1, st1) := CompleteModule(c, env, w, st, f, reason).value;
          var next := st1.(current := f + 1);
          StoreFree(c, w1, f + 1, Some(next));
          AdvanceTracked(c, env, base, w1.(store := Some(next)), f + 1, next);
      }
    }
  }

  // ── Every request ────────────────────────────────────────────────────────

  /** A state rebuilt from the rows alone has what the rows say, and the start times of running modules only. */
  lemma {:induction false} RebuiltTracked(c: Setup, w: World, f: nat, now: int)
    requires ValidSetup(c) && DbOk(c, w, f)
    ensures Tracks(c, w, w.responses, Rehydrate(c, now, w))
  {
    hide Replay, LogOk, ResultsOk, Closed;
    LogRows(c, w.responses, w.row.expiresAt);
    ReplayFacts(c, w.responses);
    var st := Rehydrate(c, now, w);
    forall i | 0 <= i < |c.configs|
      ensures TracksModule(c, w, w.responses, st.modules[i], i)
    {
      ReplayConfig(c, w.responses, i);
    }
  }

  /** The world a request's live state was built from. */
  function BaseFor(base: World, w: World): World {
    if w.store.None? then w else base
  }

  lemma {:induction false} LoadedTracked(c: Setup, base: World, w: World, f: nat, now: int)
    requires ValidSetup(c) && RunningOk(c, w, f) && TrackedWorld(c, base, w)
    ensures Tracks(c, BaseFor(base, w), w.responses, Loaded(c, now, w).1)
    ensures Loaded(c, now, w).0.responses == w.responses
  {
    hide Tracks, Rehydrate, LiveOk, LogOk, ResultsOk;
    if w.store.None? {
      RebuiltTracked(c, w, f, now);
    }
  }

  lemma {:induction false} SubmitTracked(c: Setup, env: Moment, base: World, w: World, f: nat, id: QuestionId,
                                         answer: Answer)
    requires ValidSetup(c) && SelectorOk(c, env) && RunningOk(c, w, f) && TrackedWorld(c, base, w)
    requires answer.Ranked? ==> |answer.options| > 0
    ensures TrackedWorld(c, BaseFor(base, w), Submit(c, env, w, id, answer).0)
  {
    hide DbOk, LiveOk, RunningOk, Loaded, Advance, Finalize, ApplyAnswer, SelectorOk, Tracks;
    var b := BaseFor(base, w);
    LoadedOk(c, w, f, env.now);
    LoadedTracked(c, base, w, f, env.now);
    var (w1, st) := Loaded(c, env.now, w);
    DbFacts(c, w1, f);
    LiveFacts(c, w1, f, st);
    if env.now >= st.expiresAt {
      FinalizedTracked(c, env.now, b, w1, st, SessionAutoSubmitted);
    } else if st.served.Some? && st.served.value.questionId == id {
      AdvanceTracked(c, env, b, w1, f, st);
      if ApplyAnswer(c, env, w1, st, f, st.served.value, answer).Ok? {
        AnswerKept(c, env, w1, f, st, answer);
        AnswerTracked(c, env, b, w1, f, st, answer);
        var (w2, st2) := ApplyAnswer(c, env, w1, st, f, st.served.value, answer).value;
        StoreFree(c, w2, f, Some(st2));
        AdvanceTracked(c, env, b, w2.(store := Some(st2)), f, st2);
      }
    }
  }

  lemma {:induction false} StartModuleTracked(c: Setup, env: Moment, base: World, w: World, f: nat)
    requires ValidSetup(c) && SelectorOk(c, env) && RunningOk(c, w, f) && TrackedWorld(c, base, w)
    ensures TrackedWorld(c, BaseFor(base, w), StartCurrentModule(c, env, w).0)
  {
    hide DbOk, LiveOk, RunningOk, Loaded, Advance, StartCurrent, SelectorOk, Tracks;
    var b := BaseFor(base, w);
    LoadedOk(c, w, f, env.now);
    LoadedTracked(c, base, w, f, env.now);
    var (w1, st) := Loaded(c, env.now, w);
    LiveFacts(c, w1, f, st);
    if st.modules[st.current].status.Pending? {
      StartKept(c, env.now, w1, f, st);
      StartTracked(c, env.now, b, w1, st);
      var (w2, st2) := StartCurrent(c, env.now, w1, st);
      AdvanceTracked(c, env, b, w2, f, st2);
    } else {
      AdvanceTracked(c, env, b, w1, f, st);
    }
  }

  lemma {:induction false} ApplyTracked(c: Setup, base: World, w: World, f: nat, event: Event)
    requires ValidSetup(c) && SelectorOk(c, event.moment) && RunningOk(c, w, f) && TrackedWorld(c, base, w)
    ensures var w1 := Apply(c, w, event).0;
      w1.store.Some? ==> TrackedWorld(c, BaseFor(base, w), w1)
  {
    hide DbOk, LiveOk, RunningOk, Loaded, Advance, Finalize, StartCurrentModule, Submit, SelectorOk, Tracks;
    var env := event.moment;
    LoadedOk(c, w, f, env.now);
    LoadedTracked(c, base, w, f, env.now);
    var (w1, st) := Loaded(c, env.now, w);
    DbFacts(c, w1, f);
    LiveFacts(c, w1, f, st);
    AdvanceTracked(c, env, BaseFor(base, w), w1, f, st);
    StartModuleTracked(c, env, base, w, f);
    FinalizedTracked(c, env.now, BaseFor(base, w), w1, st, SessionAutoSubmitted);
    if event.request.SubmitAnswer? && ToAnswer(event.request.dto).Ok? {
      SubmitTracked(c, env, base, w, f, event.request.dto.questionId, ToAnswer(event.request.dto).value);
    }
  }

  lemma {:induction false} CreateTracked(c: Setup, candidateId: CandidateId, start: int)
    ensures var w := Create(c, candidateId, start); TrackedWorld(c, w, w)
  {
    var w := Create(c, candidateId, start);
    assert Replay(c, []) == FreshModules(c.configs);
    forall i | 0 <= i < |c.configs|
      ensures TracksModule(c, w, [], w.store.value.modules[i], i)
    {
    }
  }

  /** In every reachable running session the live state is tracked from the world it was last built from. */
  lemma {:induction false} RunTracked(c: Setup, candidateId: CandidateId, start: int, events: seq<Event>)
    requires ValidSetup(c) && ValidEvents(c, events)
    ensures var w0 := Create(c, candidateId, start);
      TrackedWorld(c, LastBuilt(c, w0, events), Run(c, w0, events))
  {
    hide Apply, RunningOk, FinishedOk, SelectorOk, Tracks;
    var w0 := Create(c, candidateId, start);
    if events == [] {
      CreateTracked(c, candidateId, start);
    } else {
      var before, e := events[..|events| - 1], events[|events| - 1];
      assert e in events;
      RunTracked(c, candidateId, start, before);
      RunKept(c, candidateId, start, before);
      var w := Run(c, w0, before);
      if FinishedOk(c, w) {
        FinishedApply(c, w, e);
        FinishedForgets(c, Apply(c, w, e).0);
      } else {
        var f :| RunningOk(c, w, f);
        ApplyTracked(c, LastBuilt(c, w0, before), w, f, e);
      }
    }
  }

  // ── The information sum ──────────────────────────────────────────────────

  /**
   * In every reachable running session, rebuilding the live state changes a module's information sum by
   * exactly the drift of the answers since the state was last built. So the sum comes back if and only if
   * the differences between scoring those answers at the estimate and at the rounded estimate cancel out.
   */
  lemma {:induction false} InformationDrift(c: Setup, candidateId: CandidateId, start: int, events: seq<Event>,
                                            now: int, i: nat)
    requires ValidSetup(c) && ValidEvents(c, events) && i < |c.configs|
    requires var w := Run(c, Create(c, candidateId, start), events);
      w.row.status.SessionInProgress? && w.store.Some?
    ensures var w0 := Create(c, candidateId, start);
      var w := Run(c, w0, events);
      var st, back := w.store.value, Rehydrate(c, now, w);
      var k := |LastBuilt(c, w0, events).responses|;
      && i < |st.modules| && i < |back.modules|
      && st.modules[i].ability == Estimate(c, w.responses, k, i)
      && st.modules[i].information - back.modules[i].information == Drift(c, w.responses, k, i)
      && (back.modules[i].information == st.modules[i].information <==> Drift(c, w.responses, k, i) == 0.0)
  {
    hide Run, LastBuilt, Replay, Estimate, Drift;
    RunTracked(c, candidateId, start, events);
    var w0 := Create(c, candidateId, start);
    var w := Run(c, w0, events);
    assert TracksModule(c, LastBuilt(c, w0, events), w.responses, w.store.value.modules[i], i);
  }

  /** Every answer of the module since the state was built was scored at an estimate with at most two decimals. */
  ghost predicate ScoredOnHundredths(c: Setup, log: seq<Response>, k: nat, i: nat)
    requires i < |c.configs|
  {
    forall j :: k <= j < |log| && log[j].moduleId == c.configs[i].moduleId ==>
      Round2(Estimate(c, log[..j], k, i)) == Estimate(c, log[..j], k, i)
  }

  lemma {:induction false} NoDriftOnHundredths(c: Setup, log: seq<Response>, k: nat, i: nat)
    requires i < |c.configs| && ScoredOnHundredths(c, log, k, i)
    ensures Drift(c, log, k, i) == 0.0
  {
    hide Estimate, Round2;
    if |log| > k {
      var before := log[..|log| - 1];
      forall j | k <= j < |before| && before[j].moduleId == c.configs[i].moduleId
        ensures Round2(Estimate(c, before[..j], k, i)) == Estimate(c, before[..j], k, i)
      {
        assert before[..j] == log[..j];
      }
      NoDriftOnHundredths(c, before, k, i);
    }
  }

  /** The sum comes back whatever the information function, when no estimate in use needed rounding. */
  lemma {:induction false} InformationRecovered(c: Setup, candidateId: CandidateId, start: int, events: seq<Event>,
                                                now: int, i: nat)
    requires ValidSetup(c) && ValidEvents(c, events) && i < |c.configs|
    requires var w0 := Create(c, candidateId, start);
      var w := Run(c, w0, events);
      && w.row.status.SessionInProgress? && w.store.Some? && i < |w.store.value.modules|
      && ScoredOnHundredths(c, w.responses, |LastBuilt(c, w0, events).responses|, i)
    ensures var w := Run(c, Create(c, candidateId, start), events);
      Rehydrate(c, now, w).modules[i].information == w.store.value.modules[i].information
  {
    hide Run, LastBuilt, Estimate, Drift, ScoredOnHundredths, Rehydrate;
    var w0 := Create(c, candidateId, start);
    InformationDrift(c, candidateId, start, events, now, i);
    NoDriftOnHundredths(c, Run(c, w0, events).responses, |LastBuilt(c, w0, events).responses|, i);
  }

  // ── Start times ──────────────────────────────────────────────────────────

  /**
   * Closing a reachable running session turns the stored start time of a closed module into null if and
   * only if the module was already closed when the live state was last rebuilt; otherwise its row is kept.
   */
  lemma {:induction false} StartTimeLost(c: Setup, candidateId: CandidateId, start: int, events: seq<Event>,
                                         now: int, status: SessionStatus, i: nat)
    requires ValidSetup(c) && ValidEvents(c, events) && i < |c.configs|
    requires var w := Run(c, Create(c, candidateId, start), events);
      w.row.status.SessionInProgress? && Closed(w.results, c.configs[i].moduleId)
    ensures var w0, id := Create(c, candidateId, start), c.configs[i].moduleId;
      var w := Run(c, w0, events);
      var (w1, st) := Loaded(c, now, w);
      var after := Finalize(c, now, w1, st, status);
      && id in after.results && w.results[id].startedAt.Some?
      && after.results[id] == (if Closed(BaseFor(LastBuilt(c, w0, events), w).results, id)
                               then w.results[id].(startedAt := None) else w.results[id])
  {
    hide Run, LastBuilt, Finalize, Loaded, Closed, Tracks;
    var w0, id := Create(c, candidateId, start), c.configs[i].moduleId;
    var w := Run(c, w0, events);
    RunTracked(c, candidateId, start, events);
    RunKept(c, candidateId, start, events);
    ClosedRowsSurvive(c, candidateId, start, events, now, status, i);
    RunningFromRow(c, w);
    var f :| RunningOk(c, w, f);
    LoadedTracked(c, LastBuilt(c, w0, events), w, f, now);
    ClosedLoaded(c, BaseFor(LastBuilt(c, w0, events), w), w, f, now, i);
  }

  lemma {:induction false} ClosedLoaded(c: Setup, base: World, w: World, f: nat, now: int, i: nat)
    requires ValidSetup(c) && RunningOk(c, w, f) && i < |c.configs| && Closed(w.results, c.configs[i].moduleId)
    requires Tracks(c, base, w.responses, Loaded(c, now, w).1)
    ensures var st := Loaded(c, now, w).1;
      i < |st.modules| && (st.modules[i].startedAt.None? <==> Closed(base.results, c.configs[i].moduleId))
  {
    hide Loaded, Replay, Estimate, Drift, LogOk, Mirrors, SameScores;
    LoadedOk(c, w, f, now);
    var (w1, st) := Loaded(c, now, w);
    assert i < f;
    assert StatusOk(w1, st.modules[i], i, f) && TracksModule(c, base, w.responses, st.modules[i], i);
  }
}
