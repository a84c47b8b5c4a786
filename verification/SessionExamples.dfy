/** Concrete runs in which a rebuild is not exact, or leaves a running module without a question. */
module SessionExamples {
  import opened Wrappers
  import opened Rounding
  import opened EngineTypes
  import opened AdaptiveEngine
  import opened SessionRuntime
  import opened SessionReplay
  import opened SessionInvariant
  import opened SessionTheorems
  import opened SessionRebuilds

  // ── An information sum that does not come back ───────────────────────────

  /**
   * A module of three objective questions and one to follow; each answer moves the estimate by a thousandth, and
   * information is the estimate.
   */
  function DriftSetup(): Setup {
    Setup(
      Scoring((a, d, ok, n) => a + 0.001, (a, d) => a, (id, o) => Some(map[]), (id, os) => Some(map[]),
              (id, b) => map[], (x, y) => Comparison(None, None), tallies => map[], m => false),
      [ModuleConfig(0, Objective, 3, 60), ModuleConfig(1, Trait, 1, 60)],
      map[0 := DriftQuestion(), 1 := DriftQuestion(), 2 := DriftQuestion()])
  }

  function DriftQuestion(): Question {
    Question(0, None, Some(Mcq([0, 1], 0)), None)
  }

  /** At any time, the selector picks the first of the three that the module has not seen. */
  function DriftMoment(now: int): Moment {
    Moment(now,
           (m: ModuleRun) =>
             if m.config.moduleId != 0 || !m.config.scoringType.Objective? then None
             else if 0 !in m.seen then Some(0)
             else if 1 !in m.seen then Some(1)
             else if 2 !in m.seen then Some(2) else None,
           id => 0)
  }

  function DriftAnswer(id: QuestionId): Event {
    Event(SubmitAnswer(0, AnswerDto(id, Some(0), None)), DriftMoment(1000))
  }

  function DriftEvents(): seq<Event> {
    [Event(StartModule(0), DriftMoment(0)), DriftAnswer(0), DriftAnswer(1)]
  }

  function FirstIds(n: nat): seq<QuestionId> {
    seq(n, i => i)
  }

  /** The first `n` questions are answered and the next one is on screen. */
  predicate Midway(w: World, n: nat) {
    && w.row.status.SessionInProgress? && w.row.candidateId == 0 && w.row.expiresAt == 360000 && w.results == map[]
    && |w.responses| == n && w.store.Some?
    && (forall k :: 0 <= k < n ==> w.responses[k].moduleId == 0 && w.responses[k].questionId < n)
    && var st := w.store.value;
       && st.candidateId == 0 && st.expiresAt == 360000 && !st.finished && st.current == 0
       && st.served == Some(Served(n, 0, if n == 0 then 0 else 1000)) && |st.modules| == 2 && st.modules[1].status.Pending?
       && st.modules[0].config == DriftSetup().configs[0] && st.modules[0].status.InProgress?
       && st.modules[0].seen == FirstIds(n + 1) && st.modules[0].answered == n
       && st.modules[0].deadlineAt == Some(60000)
  }

  lemma {:induction false} DriftStarts()
    ensures Midway(Apply(DriftSetup(), Create(DriftSetup(), 0, 0), DriftEvents()[0]).0, 0)
  {
    var c := DriftSetup();
    assert c.configs[..1][..0] == [];
    assert BudgetSeconds(c.configs[..1]) == 180;
    assert BudgetSeconds(c.configs) == 360;
    var w := Create(c, 0, 0);
    assert ConfigsOf(w.store.value.modules) == c.configs;
    assert AllPending(w.store.value.modules);
  }

  /** Scoring the answer in question `n`, before the session moves on. */
  lemma {:induction false} DriftScores(w: World, n: nat) returns (w2: World, st2: Live)
    requires n < 3 && Midway(w, n)
    ensures Apply(DriftSetup(), w, DriftAnswer(n)) == Advance(DriftSetup(), DriftMoment(1000), w2.(store := Some(st2)), st2)
    ensures w2.row == w.row && w2.results == w.results && |w2.responses| == n + 1 && w2.responses[..n] == w.responses
    ensures w2.responses[n].moduleId == 0 && w2.responses[n].questionId == n
    ensures st2 == w.store.value.(modules := st2.modules, answeredTotal := st2.answeredTotal, served := None)
    ensures |st2.modules| == 2 && st2.modules[1] == w.store.value.modules[1]
    ensures var m, m2 := w.store.value.modules[0], st2.modules[0];
      && m2.config == m.config && m2.status == m.status && m2.deadlineAt == m.deadlineAt
      && m2.seen == m.seen && m2.answered == m.answered + 1
  {
    var c, env, st := DriftSetup(), DriftMoment(1000), w.store.value;
    var answered := ApplyAnswer(c, env, w, st, 0, st.served.value, Chosen(0));
    assert answered.Ok?;
    w2, st2 := answered.value.0, answered.value.1;
  }

  lemma {:induction false} DriftRecords(w: World, n: nat)
    requires n < 2 && Midway(w, n)
    ensures Midway(Apply(DriftSetup(), w, DriftAnswer(n)).0, n + 1)
  {
    hide Apply;
    var c, env := DriftSetup(), DriftMoment(1000);
    var w2, st2 := DriftScores(w, n);
    var m := st2.modules[0];
    assert FirstIds(1) == [0] && FirstIds(2) == [0, 1] && FirstIds(3) == [0, 1, 2];
    assert NextStepFor(c.scoring, m, env.now, env.select) == ServeQuestion(n + 1);
    AdvanceMoves(c, env, w2.(store := Some(st2)), st2);
    assert forall k :: 0 <= k < n ==> w2.responses[k] == w.responses[k];
  }

  lemma {:induction false} DriftValid()
    ensures ValidSetup(DriftSetup()) && ValidEvents(DriftSetup(), DriftEvents())
  {
    hide SelectorOk;
    DriftSelector(0);
    DriftSelector(1000);
  }

  lemma {:induction false} DriftSelector(now: int)
    ensures SelectorOk(DriftSetup(), DriftMoment(now))
  {
    var c, env := DriftSetup(), DriftMoment(now);
    forall m: ModuleRun | env.select(m).Some?
      ensures Fits(c, m.config, env.select(m).value) && env.select(m).value !in m.seen
    {
    }
  }

  /** Two answers were stored without a rebuild in between. */
  lemma {:induction false} DriftReached()
    ensures var c := DriftSetup(); var w0 := Create(c, 0, 0);
      Midway(Run(c, w0, DriftEvents()), 2) && LastBuilt(c, w0, DriftEvents()) == w0
  {
    hide Apply, Create, Run, Midway;
    var c, events := DriftSetup(), DriftEvents();
    var w0 := Create(c, 0, 0);
    DriftStarts();
    RunNone(c, w0, events);
    RunLast(c, w0, events, 0);
    DriftRecords(Run(c, w0, events[..1]), 0);
    RunLast(c, w0, events, 1);
    DriftRecords(Run(c, w0, events[..2]), 1);
    RunLast(c, w0, events, 2);
    assert events[..3] == events;
    MidwayStored(Run(c, w0, events[..1]), 0);
    MidwayStored(Run(c, w0, events[..2]), 1);
    NothingStoredYet(c);
    LastBuiltKept(c, w0, events, 0);
    LastBuiltKept(c, w0, events, 1);
    LastBuiltKept(c, w0, events, 2);
    LastBuiltNone(c, w0, events);
  }

  lemma {:induction false} MidwayStored(w: World, n: nat)
    requires Midway(w, n)
    ensures w.store.Some?
  {
  }

  lemma {:induction false} LastBuiltNone(c: Setup, w0: World, events: seq<Event>)
    ensures LastBuilt(c, w0, events[..0]) == w0
  {
  }

  lemma {:induction false} LastBuiltKept(c: Setup, w0: World, events: seq<Event>, k: nat)
    requires k < |events| && Run(c, w0, events[..k]).store.Some?
    ensures LastBuilt(c, w0, events[..k + 1]) == LastBuilt(c, w0, events[..k])
  {
    assert events[..k + 1][..k] == events[..k];
  }

  /** The drift of any two rows of the module, from a state built before both. */
  lemma {:induction false} DriftOfTwo(log: seq<Response>)
    requires |log| == 2 && log[0].moduleId == 0 && log[1].moduleId == 0
    ensures Drift(DriftSetup(), log, 0, 0) == 0.001
  {
    var c := DriftSetup();
    assert log[..1][..0] == [];
    assert Replay(c, []) == FreshModules(c.configs);
    assert Estimate(c, [], 0, 0) == 1000.0;
    assert Drift(c, [], 0, 0) == 0.0;
    RoundIntFixed(100000);
    assert Round2(1000.0) == 1000.0;
    assert Estimate(c, log[..1], 0, 0) == 1000.001;
    assert Drift(c, log[..1], 0, 0) == 0.0;
    assert RoundInt(1000.001 * 100.0) == 100000;
    assert Round2(1000.001) == 1000.0;
  }

  /** A reachable running session whose information sum no rebuild, at any time, gives back. */
  lemma {:induction false} DriftingRun(now: int)
    ensures ValidSetup(DriftSetup()) && ValidEvents(DriftSetup(), DriftEvents())
    ensures var w := Run(DriftSetup(), Create(DriftSetup(), 0, 0), DriftEvents());
      && w.row.status.SessionInProgress? && w.store.Some?
      && |w.store.value.modules| == |Rehydrate(DriftSetup(), now, w).modules| == 2
      && Rehydrate(DriftSetup(), now, w).modules[0].information != w.store.value.modules[0].information
  {
    hide Create, Run, ValidSetup, ValidEvents, Drift, Estimate, LastBuilt;
    var c, events := DriftSetup(), DriftEvents();
    var w0 := Create(c, 0, 0);
    DriftValid();
    DriftReached();
    NothingStoredYet(c);
    var w := Run(c, w0, events);
    DriftOfTwo(w.responses);
    InformationDrift(c, 0, 0, events, now, 0);
  }

  lemma {:induction false} NothingStoredYet(c: Setup)
    ensures Create(c, 0, 0).responses == [] && Create(c, 0, 0).store.Some?
  {
  }

  // ── A module without a question ──────────────────────────────────────────

  function StrandingEvents(): seq<Event> {
    [Event(StartModule(0), DriftMoment(0)), DriftAnswer(0), Event(LoseState, DriftMoment(2000)), DriftAnswer(1)]
  }

  lemma {:induction false} DriftRebuilt(c: Setup, w: World)
    requires c == DriftSetup() && w.row.status.SessionInProgress? && w.row.candidateId == 0
    requires w.results == map[] && w.store.None? && 1000 < w.row.expiresAt
    requires |w.responses| == 1 && w.responses[0].moduleId == 0 && w.responses[0].questionId == 0
    ensures var (w1, reply) := Apply(c, w, DriftAnswer(1));
      && reply == Err(Conflict) && w1.row == w.row && w1.store.Some?
      && w1.store.value.current == 0 && w1.store.value.served.None? && |w1.store.value.modules| == 2
      && w1.store.value.modules[0].status.InProgress?
  {
    var r, fresh_ := w.responses[0], FreshModules(c.configs);
    assert w.responses[..0] == [];
    assert FindModuleFrom(fresh_, 0, 0) == 0;
    assert Replay(c, w.responses) == ReplayInto(c, fresh_, r);
    assert Replay(c, w.responses)[0] == ReplayAnswer(c.scoring, fresh_[0], r, c.bank[0]);
    var modules := SettleAll(Replay(c, w.responses), w.results, 1000);
    assert modules[0].status.InProgress?;
  }

  lemma {:induction false} Loses(c: Setup, w: World, moment: Moment)
    ensures Apply(c, w, Event(LoseState, moment)).0 == w.(store := None)
  {
  }

  /**
   * A reachable state in which the running module has nothing on screen: one answer, the loss of the blob, and
   * an answer sent before anything else has asked for the next step.
   */
  lemma {:induction false} StrandedRun()
    ensures ValidSetup(DriftSetup()) && ValidEvents(DriftSetup(), StrandingEvents())
    ensures var w := Run(DriftSetup(), Create(DriftSetup(), 0, 0), StrandingEvents());
      && w.row.status.SessionInProgress? && !ScreenMatchesModule(w)
  {
    hide Apply, Create, Run, SelectorOk;
    var c, events := DriftSetup(), StrandingEvents();
    var w0 := Create(c, 0, 0);
    DriftValid();
    DriftSelector(2000);
    DriftStarts();
    RunNone(c, w0, events);
    RunLast(c, w0, events, 0);
    DriftRecords(Run(c, w0, events[..1]), 0);
    RunLast(c, w0, events, 1);
    RunLast(c, w0, events, 2);
    RunLast(c, w0, events, 3);
    assert events[..4] == events;
    Loses(c, Run(c, w0, events[..2]), DriftMoment(2000));
    DriftRebuilt(c, Run(c, w0, events[..3]));
  }

  lemma {:induction false} RunLast(c: Setup, w: World, events: seq<Event>, k: nat)
    requires k < |events|
    ensures Run(c, w, events[..k + 1]) == Apply(c, Run(c, w, events[..k]), events[k]).0
  {
    assert events[..k + 1][..k] == events[..k];
  }

  lemma {:induction false} RunNone(c: Setup, w: World, events: seq<Event>)
    ensures Run(c, w, events[..0]) == w
  {
  }

  // ── A start time that is lost ────────────────────────────────────────────

  function ClosingEvents(): seq<Event> {
    DriftEvents() + [DriftAnswer(2), Event(LoseState, DriftMoment(2000))]
  }

  /** The third answer closes the module, and the session waits for the next. */
  lemma {:induction false} DriftCloses(w: World)
    requires Midway(w, 2)
    ensures var w1 := Apply(DriftSetup(), w, DriftAnswer(2)).0;
      w1.row.status.SessionInProgress? && Closed(w1.results, 0)
  {
    hide Apply, Finalize, Rehydrate, FinalTraitScores, ProbeResults, FinalAbility;
    var c, env := DriftSetup(), DriftMoment(1000);
    var w2, st2 := DriftScores(w, 2);
    var saved := w2.(store := Some(st2));
    assert NextStepFor(c.scoring, st2.modules[0], env.now, env.select) == ModuleComplete(MaxQuestions);
    AdvanceMoves(c, env, saved, st2);
    var (w3, st3) := CompleteModule(c, env, saved, st2, 0, MaxQuestions).value;
    var next := st3.(current := 1);
    AdvanceRests(c, env, w3.(store := Some(next)), next);
  }

  lemma {:induction false} AutoSubmits(c: Setup, w: World, moment: Moment)
    requires w.row.status.SessionInProgress?
    ensures var (w1, st) := Loaded(c, moment.now, w);
      Apply(c, w, Event(AutoSubmit, moment)).0 == Finalize(c, moment.now, w1, st, SessionAutoSubmitted)
  {
  }

  /** A closed module's stored start time that auto-submitting after a loss turns into null, whenever it comes. */
  lemma {:induction false} StartTimeLostRun(moment: Moment)
    ensures ValidSetup(DriftSetup()) && ValidEvents(DriftSetup(), ClosingEvents())
    ensures var w := Run(DriftSetup(), Create(DriftSetup(), 0, 0), ClosingEvents());
      var after := Apply(DriftSetup(), w, Event(AutoSubmit, moment)).0;
      && w.row.status.SessionInProgress? && 0 in w.results && 0 in after.results
      && w.results[0].startedAt.Some? && after.results[0] == w.results[0].(startedAt := None)
  {
    hide Apply, Create, Run, SelectorOk, LastBuilt, Finalize, Loaded, Midway;
    var c, events := DriftSetup(), ClosingEvents();
    var w0 := Create(c, 0, 0);
    DriftValid();
    DriftSelector(1000);
    DriftSelector(2000);
    DriftReached();
    assert events[..3] == DriftEvents() && events[3] == DriftAnswer(2) && events[..5] == events;
    DriftCloses(Run(c, w0, events[..3]));
    RunLast(c, w0, events, 3);
    RunLast(c, w0, events, 4);
    Loses(c, Run(c, w0, events[..4]), DriftMoment(2000));
    var w := Run(c, w0, events);
    AutoSubmits(c, w, moment);
    StartTimeLost(c, 0, 0, events, moment.now, SessionAutoSubmitted, 0);
  }
}
