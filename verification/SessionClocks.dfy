/** The clocks of a candidate session: deadlines are respected, and the budget covers every module. */
module SessionClocks {
  import opened Wrappers
  import opened EngineTypes
  import opened AdaptiveEngine
  import opened SessionRuntime
  import opened SessionReplay
  import opened SessionInvariant

  // ── What a request appends ───────────────────────────────────────────────

  predicate HasChoice(r: Response) {
    r.selectedOption.Some? || r.selectedOptions.Some?
  }

  /** The log only grows, by rows stored now. */
  predicate Appends(old_: seq<Response>, new_: seq<Response>, now: int) {
    old_ <= new_ && forall k :: |old_| <= k < |new_| ==> new_[k].answeredAt == now
  }

  /** The log only grows, by rows of questions that nobody answered. */
  predicate AppendsUnanswered(old_: seq<Response>, new_: seq<Response>, now: int) {
    Appends(old_, new_, now) && forall k :: |old_| <= k < |new_| ==> !HasChoice(new_[k])
  }

  /** Two live states with the same clocks and the same untouched modules. */
  predicate SameClocks(st: Live, st1: Live) {
    && |st1.modules| == |st.modules| && st1.startedAt == st.startedAt && st1.expiresAt == st.expiresAt
    && forall j :: 0 <= j < |st.modules| ==>
         && st1.modules[j].deadlineAt == st.modules[j].deadlineAt
         && (st1.modules[j].status.Pending? <==> st.modules[j].status.Pending?)
  }

  lemma {:induction false} RecordKeepsStatus(scoring: Scoring, m: ModuleRun, id: QuestionId, question: Question,
                                             answer: Answer, sequence: nat, difficulty: int)
    requires RecordAnswer(scoring, m, id, question, answer, sequence, difficulty).Ok?
    ensures var m1 := RecordAnswer(scoring, m, id, question, answer, sequence, difficulty).value.0;
      m1.deadlineAt == m.deadlineAt && m1.status == m.status
  {
  }

  lemma {:induction false} CompleteAppends(c: Setup, env: Moment, w: World, st: Live, i: nat, reason: StopReason)
    requires i < |st.modules| && CompleteModule(c, env, w, st, i, reason).Ok?
    ensures var (w1, st1) := CompleteModule(c, env, w, st, i, reason).value;
      && AppendsUnanswered(w.responses, w1.responses, env.now)
      && w1.row == w.row && st1.finished == st.finished
      && |st1.modules| == |st.modules| && st1.expiresAt == st.expiresAt && st1.startedAt == st.startedAt
      && (!st.modules[i].status.Pending? ==> SameClocks(st, st1))
  {
    hide RecordAnswer, ResultOf;
    var onScreen := st.served.Some? && st.served.value.moduleId == st.modules[i].config.moduleId;
    if onScreen {
      ApplyAnswerFrame(c, env, w, st, i, st.served.value, Unanswered);
    }
  }

  lemma {:induction false} ApplyAnswerFrame(c: Setup, env: Moment, w: World, st: Live, i: nat, served: Served,
                                            answer: Answer)
    requires i < |st.modules| && ApplyAnswer(c, env, w, st, i, served, answer).Ok?
    ensures var (w1, st1) := ApplyAnswer(c, env, w, st, i, served, answer).value;
      && Appends(w.responses, w1.responses, env.now) && |w1.responses| == |w.responses| + 1
      && HasChoice(w1.responses[|w.responses|]) == !answer.Unanswered?
      && w1.row == w.row && w1.results == w.results && st1.finished == st.finished
      && SameClocks(st, st1)
  {
    hide RecordAnswer;
    var id := served.questionId;
    RecordKeepsStatus(c.scoring, st.modules[i], id, c.bank[id], answer, st.answeredTotal + 1, env.difficulty(id));
  }

  lemma {:induction false} FinalizeFrame(c: Setup, now: int, w: World, st: Live, status: SessionStatus)
    ensures var w1 := Finalize(c, now, w, st, status);
      && w1.responses == w.responses
      && w1.row.expiresAt == w.row.expiresAt && w1.row.startedAt == w.row.startedAt
      && w1.row.candidateId == w.row.candidateId
  {
  }

  /** Driving a session on records no choices and moves no deadline. */
  lemma {:induction false} AdvanceAppends(c: Setup, env: Moment, w: World, st: Live)
    ensures var w1 := Advance(c, env, w, st).0;
      && AppendsUnanswered(w.responses, w1.responses, env.now)
      && w1.row.expiresAt == w.row.expiresAt && w1.row.startedAt == w.row.startedAt
      && w1.row.candidateId == w.row.candidateId
    decreases |st.modules| - st.current
  {
    hide CompleteModule, Finalize, NextStepFor, Serve;
    if st.finished {
    } else if env.now >= st.expiresAt || st.current >= |st.modules| {
      FinalizeFrame(c, env.now, w, st, SessionAutoSubmitted);
      FinalizeFrame(c, env.now, w, st, SessionCompleted);
    } else {
      var m := st.modules[st.current];
      if m.status.Completed? {
        var next := st.(current := st.current + 1);
        AdvanceAppends(c, env, w.(store := Some(next)), next);
      } else if m.status.InProgress? {
        match NextStepFor(c.scoring, m, env.now, env.select)
        case ServeQuestion(_) =>
        case ModuleComplete(reason) =>
          if CompleteModule(c, env, w, st, st.current, reason).Ok? {
            CompleteAppends(c, env, w, st, st.current, reason);
            var (w1, st1) := CompleteModule(c, env, w, st, st.current, reason).value;
            var next := st1.(current := st1.current + 1);
            AdvanceAppends(c, env, w1.(store := Some(next)), next);
          }
      }
    }
  }

  // ── Deadline safety ──────────────────────────────────────────────────────

  /**
   * Whatever the state, the log only grows, by rows stored now; a row with a choice in it is only added by
   * an answer that arrives before the session's deadline and, where the loaded state has a module deadline,
   * no later than 2000 ms after it.
   */
  lemma {:induction false} ChoicesInTime(c: Setup, w: World, event: Event)
    ensures var w1 := Apply(c, w, event).0; var now := event.moment.now; var st := Loaded(c, now, w).1;
      && Appends(w.responses, w1.responses, now)
      && ((exists k :: |w.responses| <= k < |w1.responses| && HasChoice(w1.responses[k])) ==>
            && event.request.SubmitAnswer?
            && now < st.expiresAt && st.current < |st.modules|
            && (st.modules[st.current].deadlineAt.Some? ==>
                  now <= st.modules[st.current].deadlineAt.value + ANSWER_GRACE_MS))
  {
    hide Advance, Finalize, ApplyAnswer, Rehydrate, HasChoice, Submit;
    var env := event.moment;
    var (w1, st) := Loaded(c, env.now, w);
    AdvanceAppends(c, env, w1, st);
    FinalizeFrame(c, env.now, w1, st, SessionAutoSubmitted);
    match event.request
    case StartModule(_) =>
      if st.current < |st.modules| && st.modules[st.current].status.Pending? {
        var (w2, st2) := StartCurrent(c, env.now, w1, st);
        AdvanceAppends(c, env, w2, st2);
      }
    case SubmitAnswer(_, dto) =>
      if ToAnswer(dto).Ok? {
        SubmitInTime(c, env, w, dto.questionId, ToAnswer(dto).value);
      }
    case _ =>
  }

  lemma {:induction false} SubmitInTime(c: Setup, env: Moment, w: World, id: QuestionId, answer: Answer)
    ensures var w1 := Submit(c, env, w, id, answer).0; var st := Loaded(c, env.now, w).1;
      && Appends(w.responses, w1.responses, env.now)
      && w1.row.expiresAt == w.row.expiresAt
      && ((exists k :: |w.responses| <= k < |w1.responses| && HasChoice(w1.responses[k])) ==>
            && env.now < st.expiresAt && st.current < |st.modules|
            && (st.modules[st.current].deadlineAt.Some? ==>
                  env.now <= st.modules[st.current].deadlineAt.value + ANSWER_GRACE_MS))
  {
    hide Advance, Finalize, ApplyAnswer, Rehydrate, HasChoice;
    var (w1, st) := Loaded(c, env.now, w);
    AdvanceAppends(c, env, w1, st);
    FinalizeFrame(c, env.now, w1, st, SessionAutoSubmitted);
    if st.served.Some? && st.current < |st.modules|
       && ApplyAnswer(c, env, w1, st, st.current, st.served.value, answer).Ok?
    {
      ApplyAnswerFrame(c, env, w1, st, st.current, st.served.value, answer);
      var (w2, st2) := ApplyAnswer(c, env, w1, st, st.current, st.served.value, answer).value;
      AdvanceAppends(c, env, w2.(store := Some(st2)), st2);
    }
  }

  /**
   * In every reachable state, an answer with a choice in it is only ever stored before the session's
   * deadline and no later than 2000 ms after the deadline of the module it answers.
   */
  lemma {:induction false} AnswersInTime(c: Setup, candidateId: CandidateId, start: int, events: seq<Event>,
                                         event: Event)
    requires ValidSetup(c) && ValidEvents(c, events)
    ensures var w := Run(c, Create(c, candidateId, start), events);
      var w1 := Apply(c, w, event).0; var now := event.moment.now; var st := Loaded(c, now, w).1;
      (exists k :: |w.responses| <= k < |w1.responses| && HasChoice(w1.responses[k])) ==>
        && now < w.row.expiresAt && st.current < |st.modules|
        && st.modules[st.current].deadlineAt.Some?
        && now <= st.modules[st.current].deadlineAt.value + ANSWER_GRACE_MS
  {
    hide Run, Apply, DbOk, LiveOk, FinishedOk, Loaded, HasChoice;
    RunKept(c, candidateId, start, events);
    var w := Run(c, Create(c, candidateId, start), events);
    ChoicesInTime(c, w, event);
    if FinishedOk(c, w) {
      FinishedApply(c, w, event);
    } else {
      var f :| RunningOk(c, w, f);
      LoadedOk(c, w, f, event.moment.now);
      LiveFacts(c, Loaded(c, event.moment.now, w).0, f, Loaded(c, event.moment.now, w).1);
      var w1 := Apply(c, w, event).0;
      if exists k :: |w.responses| <= k < |w1.responses| && HasChoice(w1.responses[k]) {
        ChoiceNeedsScreen(c, w, f, event);
      }
    }
  }

  /** An answer needs a question on screen, so the module it is for is running. */
  lemma {:induction false} ChoiceNeedsScreen(c: Setup, w: World, f: nat, event: Event)
    requires ValidSetup(c) && RunningOk(c, w, f)
    requires exists k :: |w.responses| <= k < |Apply(c, w, event).0.responses|
                         && HasChoice(Apply(c, w, event).0.responses[k])
    ensures Loaded(c, event.moment.now, w).1.served.Some?
    ensures Loaded(c, event.moment.now, w).0.row.expiresAt == w.row.expiresAt
  {
    hide Advance, Finalize, Rehydrate, HasChoice, StartCurrentModule, DbOk, LiveOk;
    ChoicesInTime(c, w, event);
    LoadedOk(c, w, f, event.moment.now);
    var (w1, st) := Loaded(c, event.moment.now, w);
    LiveFacts(c, w1, f, st);
    FinalizeFrame(c, event.moment.now, w1, st, SessionAutoSubmitted);
  }

  /** In every reachable state, every stored row was stored before the session deadline in force. */
  lemma {:induction false} RowsBeforeDeadline(c: Setup, candidateId: CandidateId, start: int, events: seq<Event>)
    requires ValidSetup(c) && ValidEvents(c, events)
    ensures var w := Run(c, Create(c, candidateId, start), events);
      forall r :: r in w.responses ==> r.answeredAt < w.row.expiresAt
  {
    hide Run, Replay, RowOk, SameScores;
    RunKept(c, candidateId, start, events);
    var w := Run(c, Create(c, candidateId, start), events);
    assert LogOk(c, w.responses, w.row.expiresAt);
  }

  /** A request moves the session's deadline only while nothing is answered and no module has closed. */
  lemma {:induction false} RebasedOnlyUntouched(c: Setup, w: World, event: Event)
    requires ValidSetup(c) && Inv(c, w)
    requires Apply(c, w, event).0.row.expiresAt != w.row.expiresAt
    ensures event.request.StartModule?
    ensures w.responses == [] && forall id :: !Closed(w.results, id)
  {
    hide Advance, Finalize, DbOk, LiveOk, FinishedOk, FinishedLiveOk, Rehydrate, Submit;
    var env := event.moment;
    var (w1, st) := Loaded(c, env.now, w);
    AdvanceAppends(c, env, w1, st);
    FinalizeFrame(c, env.now, w1, st, SessionAutoSubmitted);
    if event.request.SubmitAnswer? && ToAnswer(event.request.dto).Ok? {
      SubmitInTime(c, env, w, event.request.dto.questionId, ToAnswer(event.request.dto).value);
    }
    assert event.request.StartModule?;
    var (w2, st2) := StartCurrent(c, env.now, w1, st);
    AdvanceAppends(c, env, w2, st2);
    assert AllPending(st.modules);
    PendingUntouched(c, w, env.now);
  }

  lemma {:induction false} PendingUntouched(c: Setup, w: World, now: int)
    requires ValidSetup(c) && Inv(c, w) && AllPending(Loaded(c, now, w).1.modules)
    ensures w.responses == [] && forall id :: !Closed(w.results, id)
  {
    hide DbOk, LiveOk, FinishedOk, FinishedLiveOk, Rehydrate;
    if FinishedOk(c, w) {
      FinishedLoaded(c, w, now);
      FinishedPendingMeansEmpty(c, Loaded(c, now, w).0, Loaded(c, now, w).1);
    } else {
      var f :| RunningOk(c, w, f);
      LoadedOk(c, w, f, now);
      AllPendingMeansUntouched(c, Loaded(c, now, w).0, f, Loaded(c, now, w).1);
    }
    KnownResults(c, w);
    assert forall id :: Closed(w.results, id) ==> KnownModule(c, id);
  }

  lemma {:induction false} KnownResults(c: Setup, w: World)
    requires Inv(c, w)
    ensures forall id :: id in w.results ==> KnownModule(c, id)
  {
  }

  // ── The budget covers every module ───────────────────────────────────────

  lemma {:induction false} SameClocksAgain(st: Live, st1: Live, st2: Live)
    requires SameClocks(st, st1) && SameClocks(st1, st2)
    ensures SameClocks(st, st2)
  {
  }

  lemma {:induction false} OnScreenClocks(c: Setup, env: Moment, st: Live, id: QuestionId, current: nat)
    ensures SameClocks(st, st.(current := current))
    ensures st.current < |st.modules| && id in c.bank ==> SameClocks(st, Serve(c, env, st, id))
  {
  }

  /** Driving a session on keeps the blob and moves no clock. */
  lemma {:induction false} AdvanceClocks(c: Setup, env: Moment, w: World, st: Live)
    requires w.store == Some(st)
    ensures var w1 := Advance(c, env, w, st).0; w1.store.Some? && SameClocks(st, w1.store.value)
    decreases |st.modules| - st.current
  {
    hide CompleteModule, NextStepFor, Finalize, Advance, SameClocks, Serve;
    OnScreenClocks(c, env, st, 0, st.current);
    if st.finished {
      AdvanceFinished(c, env, w, st);
    } else if env.now >= st.expiresAt || st.current >= |st.modules| {
      AdvanceEnds(c, env, w, st);
      FinalizeClocks(c, env.now, w, st, if env.now >= st.expiresAt then SessionAutoSubmitted else SessionCompleted);
    } else {
      AdvanceRests(c, env, w, st);
      var m := st.modules[st.current];
      if m.status.Completed? {
        var next := st.(current := st.current + 1);
        AdvanceClocks(c, env, w.(store := Some(next)), next);
        OnScreenClocks(c, env, st, 0, st.current + 1);
        SameClocksAgain(st, next, Advance(c, env, w, st).0.store.value);
      } else if m.status.InProgress?
                && (st.served.None? || st.served.value.moduleId != m.config.moduleId || TimedOut(m, env.now))
      {
        AdvanceMoves(c, env, w, st);
        match NextStepFor(c.scoring, m, env.now, env.select)
        case ServeQuestion(id) => OnScreenClocks(c, env, st, id, st.current);
        case ModuleComplete(reason) =>
          if CompleteModule(c, env, w, st, st.current, reason).Ok? {
            CompleteAppends(c, env, w, st, st.current, reason);
            var (w1, st1) := CompleteModule(c, env, w, st, st.current, reason).value;
            var next := st1.(current := st1.current + 1);
            AdvanceClocks(c, env, w1.(store := Some(next)), next);
            OnScreenClocks(c, env, st1, 0, st1.current + 1);
            SameClocksAgain(st, st1, next);
            SameClocksAgain(st, next, Advance(c, env, w, st).0.store.value);
          }
      }
    }
  }

  /** The part of the session's allowance that the first `n` modules may use, in milliseconds. */
  function BudgetMs(c: Setup, n: nat): int
    requires n <= |c.configs|
  {
    BudgetSeconds(c.configs[..n]) * 1000
  }

  lemma {:induction false} BudgetStep(c: Setup, n: nat)
    requires n < |c.configs|
    ensures BudgetMs(c, n + 1)
            == BudgetMs(c, n) + (c.configs[n].timeLimitSeconds + INTERMISSION_SECONDS_PER_MODULE) * 1000
  {
    assert c.configs[..n + 1][..n] == c.configs[..n];
  }

  lemma {:induction false} BudgetGrows(c: Setup, n: nat, m: nat)
    requires n <= m <= |c.configs|
    ensures BudgetMs(c, n) <= BudgetMs(c, m)
  {
    if n < m {
      BudgetGrows(c, n, m - 1);
      BudgetStep(c, m - 1);
    }
  }

  /** Every started module ends an intermission before its share of the allowance is used up. */
  predicate WithinBudget(c: Setup, st: Live) {
    && |st.modules| == |c.configs|
    && (forall i :: 0 <= i < |c.configs| ==>
          (st.modules[i].status.Pending? <==> st.modules[i].deadlineAt.None?))
    && (forall i :: 0 <= i < |c.configs| && st.modules[i].deadlineAt.Some? ==>
          && st.modules[i].deadlineAt.value + INTERMISSION_SECONDS_PER_MODULE * 1000
             <= st.startedAt + BudgetMs(c, i + 1)
          && st.expiresAt == st.startedAt + BudgetMs(c, |c.configs|))
  }

  /** A later module is started within 120 s of the deadline of the one before it. */
  predicate Prompt(w: World, event: Event) {
    event.request.StartModule? && w.store.Some? ==>
      var st := w.store.value;
      0 < st.current < |st.modules| && st.modules[st.current].status.Pending?
      && st.modules[st.current - 1].deadlineAt.Some? ==>
        event.moment.now <= st.modules[st.current - 1].deadlineAt.value + INTERMISSION_SECONDS_PER_MODULE * 1000
  }

  /** Starting the first module sets the allowance; starting a later one promptly stays within it. */
  lemma {:induction false} StartFits(c: Setup, now: int, w: World, st: Live)
    requires WithinBudget(c, st) && ConfigsOf(st.modules) == c.configs && st.current < |c.configs|
    requires st.current == 0 ==> AllPending(st.modules)
    requires 0 < st.current ==>
      && !st.modules[st.current - 1].status.Pending?
      && now <= st.modules[st.current - 1].deadlineAt.value + INTERMISSION_SECONDS_PER_MODULE * 1000
    requires st.modules[st.current].status.Pending?
    ensures WithinBudget(c, StartCurrent(c, now, w, st).1)
  {
    assert c.configs[..|c.configs|] == c.configs;
    BudgetStep(c, st.current);
    if st.current == 0 {
      assert BudgetMs(c, 0) == 0;
      assert forall i :: 0 <= i < |c.configs| ==> st.modules[i] in st.modules;
    } else {
      assert st.modules[st.current - 1] in st.modules;
    }
  }

  lemma {:induction false} StartWithinBudget(c: Setup, w: World, f: nat, event: Event)
    requires ValidSetup(c) && RunningOk(c, w, f) && w.store.Some? && WithinBudget(c, w.store.value)
    requires event.request.StartModule? && Prompt(w, event)
    requires w.store.value.current < |c.configs| && w.store.value.modules[w.store.value.current].status.Pending?
    ensures WithinBudget(c, StartCurrent(c, event.moment.now, w, w.store.value).1)
  {
    hide Mirrors, DbOk, StartCurrent, BudgetMs;
    var st := w.store.value;
    assert forall i :: 0 <= i < |c.configs| ==> StatusOk(w, st.modules[i], i, f);
    ConfigsMatch(c, w, f, st);
    StartFits(c, event.moment.now, w, st);
  }

  lemma {:induction false} SameClocksWithinBudget(c: Setup, st: Live, st1: Live)
    requires WithinBudget(c, st) && SameClocks(st, st1)
    ensures WithinBudget(c, st1)
  {
    hide BudgetMs;
  }

  /** One request, with the blob still there, keeps every module within its budget. */
  lemma {:induction false} RequestWithinBudget(c: Setup, w: World, f: nat, event: Event)
    requires ValidSetup(c) && RunningOk(c, w, f) && w.store.Some? && WithinBudget(c, w.store.value)
    requires !event.request.LoseState? && Prompt(w, event)
    ensures var w1 := Apply(c, w, event).0; w1.store.Some? && WithinBudget(c, w1.store.value)
  {
    hide RunningOk, WithinBudget, Advance, ApplyAnswer, StartCurrent, SameClocks;
    var env, st := event.moment, w.store.value;
    AdvanceClocks(c, env, w, st);
    SameClocksWithinBudget(c, st, Advance(c, env, w, st).0.store.value);
    FinalizeClocks(c, env.now, w, st, SessionAutoSubmitted);
    SameClocksWithinBudget(c, st, Finalize(c, env.now, w, st, SessionAutoSubmitted).store.value);
    match event.request
    case StartModule(_) =>
      WithinBudgetLength(c, st);
      if st.current < |st.modules| && st.modules[st.current].status.Pending? {
        StartWithinBudget(c, w, f, event);
        StartStores(c, env.now, w, st);
        var (w2, st2) := StartCurrent(c, env.now, w, st);
        AdvanceClocks(c, env, w2, st2);
        SameClocksWithinBudget(c, st2, Advance(c, env, w2, st2).0.store.value);
      }
    case SubmitAnswer(_, dto) =>
      if ToAnswer(dto).Ok? && st.served.Some? && st.current < |st.modules|
         && ApplyAnswer(c, env, w, st, st.current, st.served.value, ToAnswer(dto).value).Ok?
      {
        ApplyAnswerFrame(c, env, w, st, st.current, st.served.value, ToAnswer(dto).value);
        var (w2, st2) := ApplyAnswer(c, env, w, st, st.current, st.served.value, ToAnswer(dto).value).value;
        SameClocksWithinBudget(c, st, st2);
        AdvanceClocks(c, env, w2.(store := Some(st2)), st2);
        SameClocksWithinBudget(c, st2, Advance(c, env, w2.(store := Some(st2)), st2).0.store.value);
      }
    case _ =>
  }

  lemma {:induction false} StartStores(c: Setup, now: int, w: World, st: Live)
    requires st.current < |st.modules|
    ensures var (w1, st1) := StartCurrent(c, now, w, st); w1.store == Some(st1)
  {
  }

  lemma {:induction false} WithinBudgetLength(c: Setup, st: Live)
    requires WithinBudget(c, st)
    ensures |st.modules| == |c.configs|
  {
  }

  lemma {:induction false} FinalizeClocks(c: Setup, now: int, w: World, st: Live, status: SessionStatus)
    requires w.store == Some(st)
    ensures var w1 := Finalize(c, now, w, st, status);
      w1.store.Some? && SameClocks(st, w1.store.value)
  {
  }

  /** A run in which the blob is never lost and every later module is started promptly. */
  ghost predicate PromptRun(c: Setup, w: World, events: seq<Event>) {
    forall k :: 0 <= k < |events| ==> !events[k].request.LoseState? && Prompt(Run(c, w, events[..k]), events[k])
  }

  lemma {:induction false} RunWithinBudget(c: Setup, candidateId: CandidateId, start: int, events: seq<Event>)
    requires ValidSetup(c) && ValidEvents(c, events) && PromptRun(c, Create(c, candidateId, start), events)
    ensures var w := Run(c, Create(c, candidateId, start), events);
      w.row.status.SessionInProgress? ==> w.store.Some? && WithinBudget(c, w.store.value)
  {
    hide Apply, FinishedOk, RunningOk, WithinBudget, SelectorOk, Prompt;
    var w0 := Create(c, candidateId, start);
    if events == [] {
      FreshWithinBudget(c, candidateId, start);
    } else {
      var last := |events| - 1;
      forall k | 0 <= k < last
        ensures !events[..last][k].request.LoseState? && Prompt(Run(c, w0, events[..last][..k]), events[..last][k])
      {
        assert events[..last][..k] == events[..k] && events[..last][k] == events[k];
      }
      RunWithinBudget(c, candidateId, start, events[..last]);
      RunKept(c, candidateId, start, events[..last]);
      var w := Run(c, w0, events[..last]);
      if FinishedOk(c, w) {
        FinishedApply(c, w, events[last]);
        FinishedForgets(c, w);
      } else {
        var f :| RunningOk(c, w, f);
        RunningStatus(c, w, f);
        RequestWithinBudget(c, w, f, events[last]);
      }
    }
  }

  lemma {:induction false} RunningStatus(c: Setup, w: World, f: nat)
    requires RunningOk(c, w, f)
    ensures w.row.status.SessionInProgress?
  {
  }

  lemma {:induction false} FreshWithinBudget(c: Setup, candidateId: CandidateId, start: int)
    ensures var w := Create(c, candidateId, start); w.store.Some? && WithinBudget(c, w.store.value)
  {
  }

  /**
   * In a run without state loss, with each later module started within 120 s of the previous module's
   * deadline, every started module's deadline plus the answer grace falls before the session's deadline,
   * for any number of modules and any limits.
   */
  lemma {:induction false} BudgetSuffices(c: Setup, candidateId: CandidateId, start: int, events: seq<Event>, i: nat)
    requires ValidSetup(c) && ValidEvents(c, events) && PromptRun(c, Create(c, candidateId, start), events)
    requires var w := Run(c, Create(c, candidateId, start), events);
      && w.row.status.SessionInProgress? && w.store.Some? && i < |w.store.value.modules|
      && w.store.value.modules[i].deadlineAt.Some?
    ensures var st := Run(c, Create(c, candidateId, start), events).store.value;
      st.modules[i].deadlineAt.value + ANSWER_GRACE_MS < st.expiresAt
  {
    hide Run, BudgetMs;
    RunWithinBudget(c, candidateId, start, events);
    BudgetGrows(c, i + 1, |c.configs|);
  }
}
