/** What single requests to a reachable session do: which answers are stored, what replies say, and how sessions end. */
module SessionRequests {
  import opened Wrappers
  import opened Rounding
  import opened EngineTypes
  import opened AdaptiveEngine
  import opened SessionRuntime
  import opened SessionReplay
  import opened SessionInvariant
  import opened SessionTheorems
  import opened SessionClocks

  // ── Driving on, and what the reply says ──────────────────────────────────

  predicate AllClosed(c: Setup, w: World) {
    forall i :: 0 <= i < |c.configs| ==> Closed(w.results, c.configs[i].moduleId)
  }

  /** The reply tells what the stored state holds: the end, the module to begin, or the question on screen. */
  predicate ReplyHolds(c: Setup, now: int, before: Live, w: World, step: Step) {
    match step
    case Finished =>
      && w.row.submittedAt == Some(now)
      && w.row.status == (if now >= w.row.expiresAt then SessionAutoSubmitted else SessionCompleted)
      && (w.row.status.SessionCompleted? ==> AllClosed(c, w))
    case ModuleIntro(k) =>
      && w.row.status.SessionInProgress? && now < w.row.expiresAt && w.store.Some?
      && var st := w.store.value;
         st.current == k < |st.modules| && st.modules[k].status.Pending? && st.served.None?
    case OnScreen(id, n) =>
      && w.row.status.SessionInProgress? && now < w.row.expiresAt && w.store.Some?
      && var st := w.store.value;
         && st.current < |st.modules| && st.modules[st.current].status.InProgress?
         && !TimedOut(st.modules[st.current], now)
         && st.served.Some? && st.served.value.questionId == id && n == |w.responses| + 1
         && (st.served == before.served || st.served.value.servedAt == now)
  }

  lemma {:induction false} FinalizeTells(c: Setup, env: Moment, w: World, f: nat, st: Live, status: SessionStatus)
    requires ValidSetup(c) && DbOk(c, w, f) && LiveOk(c, w, f, st)
    ensures var w1 := Finalize(c, env.now, w, st, status);
      && w1.row == w.row.(status := status, submittedAt := Some(env.now)) && w1.responses == w.responses
      && (f == |c.configs| ==> AllClosed(c, w1))
  {
    hide Replay, LogOk, RowOk, Mirrors, SameScores, PersistAll;
    LiveFacts(c, w, f, st);
    DbFacts(c, w, f);
    ConfigsMatch(c, w, f, st);
    CutOffConfigs(c, st, env.now);
    AllPersisted(c, CutOffAll(st.modules, env.now), w.results);
    forall i | 0 <= i < |c.configs| && f == |c.configs|
      ensures CutOffAll(st.modules, env.now)[i].completedAt.Some?
    {
      assert StatusOk(w, st.modules[i], i, f) && ResultReasonOk(c.configs[i], w.results[c.configs[i].moduleId]);
    }
  }

  lemma {:induction false} QuietComplete(c: Setup, env: Moment, w: World, st: Live, i: nat, reason: StopReason)
    requires i < |st.modules| && CompleteModule(c, env, w, st, i, reason).Ok?
    ensures var (w1, st1) := CompleteModule(c, env, w, st, i, reason).value;
      && w1.row == w.row
      && (st.served.None? ==> w1.responses == w.responses)
      && (st.served.None? || st.served.value.moduleId == st.modules[i].config.moduleId ==> st1.served.None?)
  {
    hide RecordAnswer, ResultOf, ResponseFor;
  }

  lemma {:induction false} ServeTells(c: Setup, env: Moment, w: World, st: Live, id: QuestionId)
    requires st.current < |st.modules| && id in c.bank && st.modules[st.current].status.InProgress?
    requires !TimedOut(st.modules[st.current], env.now)
    ensures var st1 := Serve(c, env, st, id);
      && st1.current == st.current < |st1.modules| && st1.modules[st1.current].status.InProgress?
      && !TimedOut(st1.modules[st1.current], env.now)
      && st1.served == Some(Served(id, st.modules[st.current].config.moduleId, env.now))
  {
  }

  /** Driving a running session on replies with what it then holds, and stores no row unless a question was up. */
  lemma {:induction false} AdvanceTells(c: Setup, env: Moment, w: World, f: nat, st: Live)
    requires ValidSetup(c) && SelectorOk(c, env)
    requires DbOk(c, w, f) && LiveOk(c, w, f, st) && w.store == Some(st)
    ensures var (w1, reply) := Advance(c, env, w, st);
      && reply.Ok? && ReplyHolds(c, env.now, st, w1, reply.value)
      && (st.served.None? ==> w1.responses == w.responses)
      && w1.row.startedAt == w.row.startedAt && w1.row.expiresAt == w.row.expiresAt
      && w1.row.candidateId == w.row.candidateId
    decreases |c.configs| - f
  {
    hide DbOk, LiveOk, RunningOk, FinishedOk, Finalize, Serve, CompleteModule, SelectorOk, Advance, Fits, TimedOut, AllClosed;
    DbFacts(c, w, f);
    LiveFacts(c, w, f, st);
    if env.now >= st.expiresAt || f == |c.configs| {
      AdvanceEnds(c, env, w, st);
      FinalizeTells(c, env, w, f, st, if env.now >= st.expiresAt then SessionAutoSubmitted else SessionCompleted);
    } else {
      var m := st.modules[f];
      if m.status.Pending? || (st.served.Some? && !TimedOut(m, env.now)) {
        AdvanceRests(c, env, w, st);
      } else {
        AdvanceMoves(c, env, w, st);
        TimeFirst(c.scoring, m, env.now, env.select);
        match NextStepFor(c.scoring, m, env.now, env.select)
        case ServeQuestion(id) =>
          ServedNext(c, env, w, f, st, id);
          ServeTells(c, env, w, st, id);
        case ModuleComplete(reason) =>
          AnsweredWithin(c, w, f, st);
          ReasonOfStep(c.scoring, m, env.now, env.select);
          CompleteKept(c, env, w, f, st, reason);
          QuietComplete(c, env, w, st, f, reason);
          var (w1, st1) := CompleteModule(c, env, w, st, f, reason).value;
          var next := st1.(current := f + 1);
          StoreFree(c, w1, f + 1, Some(next));
          AdvanceTells(c, env, w1.(store := Some(next)), f + 1, next);
      }
    }
  }

  lemma {:induction false} TimeFirst(scoring: Scoring, m: ModuleRun, now: int, select: ModuleRun -> Option<QuestionId>)
    ensures NextStepFor(scoring, m, now, select).ServeQuestion? ==> !TimedOut(m, now)
    ensures TimedOut(m, now) ==> NextStepFor(scoring, m, now, select) == ModuleComplete(TimeExpired)
  {
  }

  // ── Which answers are stored ─────────────────────────────────────────────

  /** The answer is one the question can take: an option it has, or what its pattern asks for and the evaluator accepts. */
  predicate Acceptable(c: Setup, config: ModuleConfig, id: QuestionId, dto: AnswerDto) {
    id in c.bank &&
    if config.scoringType.Objective? then
      c.bank[id].mcq.Some? && dto.selectedOption.Some? && dto.selectedOption.value in c.bank[id].mcq.value.options
    else
      && c.bank[id].personality.Some?
      && (dto.selectedOptions.Some? <==> c.bank[id].personality.value.pattern == Some(Ranking))
      && (dto.selectedOptions.Some? ==> c.scoring.rankingWeights(id, dto.selectedOptions.value).Some?)
      && (dto.selectedOption.Some? ==> c.scoring.choiceWeights(id, dto.selectedOption.value).Some?)
  }

  /**
   * The payload has one of its two shapes, comes from the candidate in time, answers the question that is on
   * screen, and that question can take it. `st` is the live state, stored or rebuilt.
   */
  predicate Storable(c: Setup, w: World, st: Live, candidateId: CandidateId, dto: AnswerDto, now: int) {
    && (dto.selectedOption.Some? <==> dto.selectedOptions.None?)
    && (dto.selectedOptions.Some? ==> |dto.selectedOptions.value| >= 2)
    && w.row.status.SessionInProgress? && candidateId == w.row.candidateId && now < w.row.expiresAt
    && st.served.Some? && st.served.value.questionId == dto.questionId
    && st.current < |st.modules|
    && (st.modules[st.current].deadlineAt.Some? ==> now <= st.modules[st.current].deadlineAt.value + 2000)
    && Acceptable(c, st.modules[st.current].config, dto.questionId, dto)
  }

  /** The row an answer is stored as: what was asked, what was chosen, in which place and how quickly. */
  predicate IsAnswerRow(c: Setup, st: Live, dto: AnswerDto, env: Moment, n: nat, r: Response) {
    && st.current < |st.modules| && st.served.Some?
    && r.moduleId == st.modules[st.current].config.moduleId && r.questionId == dto.questionId
    && r.selectedOption == dto.selectedOption && r.selectedOptions == dto.selectedOptions
    && r.sequenceNumber == n + 1 && r.answeredAt == env.now
    && r.timeTakenMs == (if env.now > st.served.value.servedAt then env.now - st.served.value.servedAt else 0)
    && (st.modules[st.current].config.scoringType.Objective? ==>
          && r.difficultyAtServe == Some(env.difficulty(dto.questionId))
          && dto.questionId in c.bank && c.bank[dto.questionId].mcq.Some?
          && r.isCorrect == Some(dto.selectedOption == Some(c.bank[dto.questionId].mcq.value.correctOption))
          && r.abilityAfter == Some(Round2(c.scoring.updateAbility(
               st.modules[st.current].ability, env.difficulty(dto.questionId), r.isCorrect.value,
               st.modules[st.current].answered))))
  }

  lemma {:induction false} RecordedIff(c: Setup, m: ModuleRun, dto: AnswerDto, answer: Answer, sequence: nat, difficulty: int)
    requires dto.questionId in c.bank && ToAnswer(dto) == Ok(answer)
    requires if m.config.scoringType.Objective? then c.bank[dto.questionId].mcq.Some?
             else c.bank[dto.questionId].personality.Some?
    ensures RecordAnswer(c.scoring, m, dto.questionId, c.bank[dto.questionId], answer, sequence, difficulty).Ok?
            <==> Acceptable(c, m.config, dto.questionId, dto)
  {
    hide PairsAfter, ApplyTraitWeights, CountPattern, TrackAbility;
  }

  lemma {:induction false} ShapesIff(dto: AnswerDto)
    ensures ToAnswer(dto).Ok? <==>
      (dto.selectedOption.Some? <==> dto.selectedOptions.None?)
      && (dto.selectedOptions.Some? ==> |dto.selectedOptions.value| >= 2)
  {
  }

  /** What scoring the answer on screen appends, when nothing stands in its way. */
  lemma {:induction false} AnswerAppends(c: Setup, env: Moment, w: World, f: nat, st: Live, dto: AnswerDto, answer: Answer)
    requires ValidSetup(c) && DbOk(c, w, f) && LiveOk(c, w, f, st) && f < |c.configs|
    requires st.served.Some? && st.served.value.questionId == dto.questionId && ToAnswer(dto) == Ok(answer)
    ensures var r := ApplyAnswer(c, env, w, st, f, st.served.value, answer);
      && (r.Ok? <==> Acceptable(c, st.modules[f].config, dto.questionId, dto))
      && (r.Ok? ==>
            var (w1, st1) := r.value;
            && st1.served.None? && w1.row == w.row
            && |w1.responses| == |w.responses| + 1 && w.responses <= w1.responses
            && IsAnswerRow(c, st, dto, env, |w.responses|, w1.responses[|w.responses|]))
  {
    hide Replay, RowOk, ResultsOk, Mirrors, Acceptable;
    ServedIsNew(c, w, f, st);
    LiveFacts(c, w, f, st);
    assert Fits(c, st.modules[f].config, dto.questionId);
    RecordedIff(c, st.modules[f], dto, answer, st.answeredTotal + 1, env.difficulty(dto.questionId));
    RecordsOutcome(c, st.modules[f], dto, answer, st.answeredTotal + 1, env.difficulty(dto.questionId));
  }

  lemma {:induction false} RecordsOutcome(c: Setup, m: ModuleRun, dto: AnswerDto, answer: Answer, sequence: nat,
                                          difficulty: int)
    requires dto.questionId in c.bank
    requires ToAnswer(dto) == Ok(answer)
    ensures var r := RecordAnswer(c.scoring, m, dto.questionId, c.bank[dto.questionId], answer, sequence, difficulty);
      r.Ok? && m.config.scoringType.Objective? ==>
        && r.value.1.difficultyAtServe == Some(difficulty) && c.bank[dto.questionId].mcq.Some?
        && r.value.1.isCorrect == Some(dto.selectedOption == Some(c.bank[dto.questionId].mcq.value.correctOption))
        && r.value.1.abilityAfter
           == Some(Round2(c.scoring.updateAbility(m.ability, difficulty, r.value.1.isCorrect.value, m.answered)))
  {
    hide PairsAfter, ApplyTraitWeights, CountPattern, TrackAbility, Round2;
  }

  /**
   * In a running session, an answer is stored if and only if it is storable. Then exactly one row is
   * appended, and it is that answer; otherwise no row with a choice in it is.
   */
  lemma {:induction false} StoredIff(c: Setup, w: World, f: nat, candidateId: CandidateId, dto: AnswerDto, env: Moment)
    requires ValidSetup(c) && SelectorOk(c, env) && RunningOk(c, w, f)
    ensures var st := Loaded(c, env.now, w).1;
      var w2 := Apply(c, w, Event(SubmitAnswer(candidateId, dto), env)).0;
      && w.responses <= w2.responses
      && (Storable(c, w, st, candidateId, dto, env.now) ==>
            |w2.responses| == |w.responses| + 1
            && IsAnswerRow(c, st, dto, env, |w.responses|, w2.responses[|w.responses|]))
      && (!Storable(c, w, st, candidateId, dto, env.now) ==>
            forall k :: |w.responses| <= k < |w2.responses| ==> !HasChoice(w2.responses[k]))
  {
    hide DbOk, LiveOk, RunningOk, Loaded, Advance, Finalize, ApplyAnswer, SelectorOk, Acceptable, IsAnswerRow, ToAnswer;
    LoadedOk(c, w, f, env.now);
    ShapesIff(dto);
    var (w1, st) := Loaded(c, env.now, w);
    DbFacts(c, w1, f);
    LiveFacts(c, w1, f, st);
    OwnerIs(c, w, f, candidateId);
    LoadedRow(c, w, env.now);
    FinalizeFrame(c, env.now, w1, st, SessionAutoSubmitted);
    AdvanceAppends(c, env, w1, st);
    if ToAnswer(dto).Ok? && st.served.Some? && st.served.value.questionId == dto.questionId {
      var answer := ToAnswer(dto).value;
      AnswerAppends(c, env, w1, f, st, dto, answer);
      if env.now < st.expiresAt && ApplyAnswer(c, env, w1, st, f, st.served.value, answer).Ok? {
        AnswerKept(c, env, w1, f, st, answer);
        var (w2, st2) := ApplyAnswer(c, env, w1, st, f, st.served.value, answer).value;
        StoreFree(c, w2, f, Some(st2));
        AdvanceTells(c, env, w2.(store := Some(st2)), f, st2);
      }
    }
  }

  lemma {:induction false} OwnerIs(c: Setup, w: World, f: nat, candidateId: CandidateId)
    requires RunningOk(c, w, f)
    ensures Owns(w, candidateId) <==> candidateId == w.row.candidateId
  {
  }

  /**
   * The same over runs: in every reachable state, a submitted answer is stored if and only if it is storable,
   * and what is stored is that answer.
   */
  lemma {:induction false} AnswersStoredOverRuns(c: Setup, candidateId: CandidateId, start: int, events: seq<Event>,
                                                 caller: CandidateId, dto: AnswerDto, env: Moment)
    requires ValidSetup(c) && ValidEvents(c, events) && SelectorOk(c, env)
    ensures var w := Run(c, Create(c, candidateId, start), events);
      var st := Loaded(c, env.now, w).1;
      var w2 := Apply(c, w, Event(SubmitAnswer(caller, dto), env)).0;
      && (Storable(c, w, st, caller, dto, env.now) <==>
            exists k :: |w.responses| <= k < |w2.responses| && HasChoice(w2.responses[k]))
      && (Storable(c, w, st, caller, dto, env.now) ==>
            |w2.responses| == |w.responses| + 1 && w.responses <= w2.responses
            && IsAnswerRow(c, st, dto, env, |w.responses|, w2.responses[|w.responses|]))
  {
    hide Run, Apply, FinishedOk, RunningOk, SelectorOk, Loaded, Acceptable;
    RunKept(c, candidateId, start, events);
    var w := Run(c, Create(c, candidateId, start), events);
    var e := Event(SubmitAnswer(caller, dto), env);
    if FinishedOk(c, w) {
      FinishedApply(c, w, e);
      FinishedForgets(c, w);
    } else {
      var f :| RunningOk(c, w, f);
      StoredIff(c, w, f, caller, dto, env);
    }
  }

  // ── Replies ──────────────────────────────────────────────────────────────

  /** A request that asks for the candidate's next step. */
  predicate AsksForStep(r: Request) {
    r.Resume? || r.CurrentStep? || r.StartModule? || r.SubmitAnswer?
  }

  lemma {:induction false} StartTells(c: Setup, env: Moment, w: World, f: nat)
    requires ValidSetup(c) && SelectorOk(c, env) && RunningOk(c, w, f)
    ensures var (w1, reply) := StartCurrentModule(c, env, w);
      reply.Ok? && ReplyHolds(c, env.now, Loaded(c, env.now, w).1, w1, reply.value)
  {
    hide DbOk, LiveOk, RunningOk, Loaded, Advance, StartCurrent, SelectorOk, TimedOut, AllClosed;
    LoadedOk(c, w, f, env.now);
    var (w1, st) := Loaded(c, env.now, w);
    LiveFacts(c, w1, f, st);
    if st.modules[st.current].status.Pending? {
      StartKept(c, env.now, w1, f, st);
      StartKeepsScreen(c, env.now, w1, st);
      var (w2, st2) := StartCurrent(c, env.now, w1, st);
      AdvanceTells(c, env, w2, f, st2);
    } else {
      AdvanceTells(c, env, w1, f, st);
    }
  }

  lemma {:induction false} StartKeepsScreen(c: Setup, now: int, w: World, st: Live)
    requires st.current < |st.modules|
    ensures StartCurrent(c, now, w, st).1.served == st.served
  {
  }

  lemma {:induction false} SubmitTells(c: Setup, env: Moment, w: World, f: nat, id: QuestionId, answer: Answer)
    requires ValidSetup(c) && SelectorOk(c, env) && RunningOk(c, w, f)
    requires answer.Ranked? ==> |answer.options| > 0
    ensures var (w1, reply) := Submit(c, env, w, id, answer);
      reply.Ok? ==> ReplyHolds(c, env.now, Loaded(c, env.now, w).1, w1, reply.value)
  {
    hide DbOk, LiveOk, RunningOk, Loaded, Advance, Finalize, ApplyAnswer, SelectorOk, TimedOut, AllClosed;
    LoadedOk(c, w, f, env.now);
    var (w1, st) := Loaded(c, env.now, w);
    DbFacts(c, w1, f);
    LiveFacts(c, w1, f, st);
    FinalizeTells(c, env, w1, f, st, SessionAutoSubmitted);
    AdvanceTells(c, env, w1, f, st);
    if st.served.Some? && st.served.value.questionId == id
       && ApplyAnswer(c, env, w1, st, f, st.served.value, answer).Ok? && env.now < st.expiresAt
    {
      AnswerKept(c, env, w1, f, st, answer);
      var (w2, st2) := ApplyAnswer(c, env, w1, st, f, st.served.value, answer).value;
      ApplyAnswerFrame(c, env, w1, st, f, st.served.value, answer);
      StoreFree(c, w2, f, Some(st2));
      AdvanceTells(c, env, w2.(store := Some(st2)), f, st2);
      ReplyFromCleared(c, env.now, st, st2, Advance(c, env, w2.(store := Some(st2)), st2));
    }
  }

  lemma {:induction false} ReplyFromCleared(c: Setup, now: int, st: Live, st2: Live, out: (World, Reply))
    requires st2.served.None? && out.1.Ok? && ReplyHolds(c, now, st2, out.0, out.1.value)
    ensures ReplyHolds(c, now, st, out.0, out.1.value)
  {
    hide AllClosed;
  }

  /**
   * In every reachable running session the reply to a request for the next step is true of the state it
   * leaves: "completed" if the session has ended, now, by its deadline or with every module closed; an intro
   * if the current module has not begun; a question if it is on screen, within its time, put there now or before.
   */
  lemma {:induction false} RepliesAreTrue(c: Setup, candidateId: CandidateId, start: int, events: seq<Event>, event: Event)
    requires ValidSetup(c) && ValidEvents(c, events) && SelectorOk(c, event.moment) && AsksForStep(event.request)
    requires Run(c, Create(c, candidateId, start), events).row.status.SessionInProgress?
    ensures var w := Run(c, Create(c, candidateId, start), events);
      var (w1, reply) := Apply(c, w, event);
      reply.Ok? ==> ReplyHolds(c, event.moment.now, Loaded(c, event.moment.now, w).1, w1, reply.value)
  {
    hide Run, DbOk, LiveOk, FinishedOk, Loaded, Advance, StartCurrentModule, Submit, SelectorOk, TimedOut, AllClosed, ReplyHolds;
    RunKept(c, candidateId, start, events);
    var w, env := Run(c, Create(c, candidateId, start), events), event.moment;
    RunningFromRow(c, w);
    var f :| RunningOk(c, w, f);
    LoadedOk(c, w, f, env.now);
    var (w1, st) := Loaded(c, env.now, w);
    AdvanceTells(c, env, w1, f, st);
    StartTells(c, env, w, f);
    if event.request.SubmitAnswer? && ToAnswer(event.request.dto).Ok? {
      SubmitTells(c, env, w, f, event.request.dto.questionId, ToAnswer(event.request.dto).value);
    }
  }

  /** Asking again, or starting a module already running, changes nothing while a question is up and in time. */
  lemma {:induction false} ScreenSticks(c: Setup, candidateId: CandidateId, start: int, events: seq<Event>, event: Event)
    requires ValidSetup(c) && ValidEvents(c, events)
    requires event.request.Resume? || event.request == CurrentStep(candidateId) || event.request == StartModule(candidateId)
    requires var w := Run(c, Create(c, candidateId, start), events);
      && w.row.status.SessionInProgress? && w.row.candidateId == candidateId && event.moment.now < w.row.expiresAt
      && w.store.Some? && w.store.value.served.Some? && w.store.value.current < |w.store.value.modules|
      && !TimedOut(w.store.value.modules[w.store.value.current], event.moment.now)
    ensures var w := Run(c, Create(c, candidateId, start), events);
      Apply(c, w, event)
      == (w, Ok(OnScreen(w.store.value.served.value.questionId, w.store.value.answeredTotal + 1)))
  {
    hide Run, DbOk, LiveOk, FinishedOk, Advance, TimedOut;
    RunKept(c, candidateId, start, events);
    var w := Run(c, Create(c, candidateId, start), events);
    RunningFromRow(c, w);
    var f :| RunningOk(c, w, f);
    var st := w.store.value;
    DbFacts(c, w, f);
    LiveFacts(c, w, f, st);
    LoadedRow(c, w, event.moment.now);
    AdvanceRests(c, event.moment, w, st);
  }

  // ── How sessions end ─────────────────────────────────────────────────────

  /**
   * A request that ends a running session stamps it with the time of the request. It is auto-submitted if and
   * only if the request was the auto-submit or came at or after the deadline; otherwise every module is closed.
   */
  lemma {:induction false} HowSessionsEnd(c: Setup, candidateId: CandidateId, start: int, events: seq<Event>, event: Event)
    requires ValidSetup(c) && ValidEvents(c, events) && SelectorOk(c, event.moment)
    requires var w := Run(c, Create(c, candidateId, start), events);
      w.row.status.SessionInProgress? && !Apply(c, w, event).0.row.status.SessionInProgress?
    ensures var w1, now := Apply(c, Run(c, Create(c, candidateId, start), events), event).0, event.moment.now;
      && w1.row.submittedAt == Some(now)
      && (w1.row.status.SessionAutoSubmitted? <==> event.request.AutoSubmit? || now >= w1.row.expiresAt)
      && (w1.row.status.SessionCompleted? ==> AllClosed(c, w1))
  {
    hide Run, DbOk, LiveOk, FinishedOk, Loaded, Advance, StartCurrentModule, Submit, SelectorOk, Finalize, AllClosed;
    RunKept(c, candidateId, start, events);
    var w, env := Run(c, Create(c, candidateId, start), events), event.moment;
    RunningFromRow(c, w);
    var f :| RunningOk(c, w, f);
    LoadedOk(c, w, f, env.now);
    LoadedRow(c, w, env.now);
    var (w1, st) := Loaded(c, env.now, w);
    FinalizeTells(c, env, w1, f, st, SessionAutoSubmitted);
    if AsksForStep(event.request) {
      RepliesAreTrue(c, candidateId, start, events, event);
      RefusalsKeepRunning(c, w, f, event);
    }
  }

  /** A refused request leaves a running session running. */
  lemma {:induction false} RefusalsKeepRunning(c: Setup, w: World, f: nat, event: Event)
    requires ValidSetup(c) && SelectorOk(c, event.moment) && RunningOk(c, w, f)
    ensures var (w1, reply) := Apply(c, w, event); reply.Err? ==> w1.row == w.row && w1.responses == w.responses
  {
    hide DbOk, LiveOk, RunningOk, Loaded, Advance, ApplyAnswer, Finalize, StartCurrent, SelectorOk, TimedOut, AllClosed, ReplyHolds;
    var env := event.moment;
    LoadedOk(c, w, f, env.now);
    LoadedRow(c, w, env.now);
    var (w1, st) := Loaded(c, env.now, w);
    DbFacts(c, w1, f);
    LiveFacts(c, w1, f, st);
    AdvanceTells(c, env, w1, f, st);
    StartTells(c, env, w, f);
    if event.request.SubmitAnswer? && ToAnswer(event.request.dto).Ok? {
      var answer := ToAnswer(event.request.dto).value;
      if st.served.Some? && ApplyAnswer(c, env, w1, st, f, st.served.value, answer).Ok? && env.now < st.expiresAt {
        AnswerKept(c, env, w1, f, st, answer);
        var (w2, st2) := ApplyAnswer(c, env, w1, st, f, st.served.value, answer).value;
        StoreFree(c, w2, f, Some(st2));
        AdvanceTells(c, env, w2.(store := Some(st2)), f, st2);
      }
    }
  }

  /**
   * Auto-submitting cuts the running module off there and then, as out of time; a module that had not begun
   * gets a row without scores, reason or time; a closed one keeps its row but for the start time.
   */
  lemma {:induction false} AutoSubmitCutsOff(c: Setup, candidateId: CandidateId, start: int, events: seq<Event>,
                                             env: Moment, i: nat)
    requires ValidSetup(c) && ValidEvents(c, events) && i < |c.configs|
    requires Run(c, Create(c, candidateId, start), events).row.status.SessionInProgress?
    ensures var w := Run(c, Create(c, candidateId, start), events);
      var w1, st, id := Apply(c, w, Event(AutoSubmit, env)).0, Loaded(c, env.now, w).1, c.configs[i].moduleId;
      && w1.row.status.SessionAutoSubmitted? && w1.responses == w.responses
      && id in w1.results && i < |st.modules|
      && match st.modules[i].status
         case InProgress =>
           w1.results[id].completedAt == Some(env.now) && w1.results[id].stopReason == Some(TimeExpired)
         case Pending =>
           && w1.results[id].completedAt.None? && w1.results[id].stopReason.None? && w1.results[id].questionsAnswered == 0
           && w1.results[id].abilityScore.None? && w1.results[id].traitScores.None? && w1.results[id].probeResults.None?
         case Completed => id in w.results && exists s :: w1.results[id] == w.results[id].(startedAt := s)
  {
    hide Run, DbOk, FinishedOk, Loaded, PersistAll, ResultOf, CutOff, Mirrors, Replay, LogOk, ResultsOk, SameScores;
    RunKept(c, candidateId, start, events);
    var w := Run(c, Create(c, candidateId, start), events);
    RunningFromRow(c, w);
    var f :| RunningOk(c, w, f);
    LoadedOk(c, w, f, env.now);
    LoadedRow(c, w, env.now);
    var (w1, st) := Loaded(c, env.now, w);
    DbFacts(c, w1, f);
    ConfigsMatch(c, w1, f, st);
    CutOffConfigs(c, st, env.now);
    AllPersisted(c, CutOffAll(st.modules, env.now), w1.results);
    assert StatusOk(w1, st.modules[i], i, f);
    CutOffResult(c.scoring, st.modules[i], env.now);
    if i < f {
      ClosedRowRewritten(c, env.now, w1, f, st, SessionAutoSubmitted, i);
    }
  }

  lemma {:induction false} CutOffResult(scoring: Scoring, m: ModuleRun, now: int)
    ensures var result := ResultOf(scoring, CutOff(m, now));
      && (m.status.InProgress? ==>
            result.completedAt == Some(now) && (m.stopReason.None? ==> result.stopReason == Some(TimeExpired)))
      && (m.status.Pending? ==>
            result.completedAt == m.completedAt && result.stopReason == m.stopReason
            && result.questionsAnswered == m.answered
            && (m.answered == 0 ==>
                  result.abilityScore.None? && result.traitScores.None? && result.probeResults.None?))
  {
  }

  /** Once the deadline has passed, the candidate's next call, or the job, ends the session. */
  lemma {:induction false} ExpiredMeansEnded(c: Setup, candidateId: CandidateId, start: int, events: seq<Event>, event: Event)
    requires ValidSetup(c) && ValidEvents(c, events) && SelectorOk(c, event.moment)
    requires var w := Run(c, Create(c, candidateId, start), events); event.moment.now >= w.row.expiresAt
    requires event.request.Resume? || event.request.AutoSubmit?
             || (event.request.CurrentStep? && Owns(Run(c, Create(c, candidateId, start), events), event.request.candidateId))
             || (event.request.SubmitAnswer? && ToAnswer(event.request.dto).Ok?
                 && Owns(Run(c, Create(c, candidateId, start), events), event.request.candidateId))
    ensures !Apply(c, Run(c, Create(c, candidateId, start), events), event).0.row.status.SessionInProgress?
  {
    hide Run, DbOk, LiveOk, FinishedOk, Loaded, Advance, SelectorOk, Finalize, ApplyAnswer, Owns, ToAnswer;
    RunKept(c, candidateId, start, events);
    var w, env := Run(c, Create(c, candidateId, start), events), event.moment;
    if FinishedOk(c, w) {
      FinishedApply(c, w, event);
      FinishedForgets(c, w);
    } else {
      var f :| RunningOk(c, w, f);
      LoadedOk(c, w, f, env.now);
      LoadedRow(c, w, env.now);
      var (w1, st) := Loaded(c, env.now, w);
      LiveFacts(c, w1, f, st);
      FinalizeTells(c, env, w1, f, st, SessionAutoSubmitted);
      AdvanceEnds(c, env, w1, st);
    }
  }

  /** After the end, every well-formed call of the candidate's is told so. */
  lemma {:induction false} FinishedSaysSo(c: Setup, candidateId: CandidateId, start: int, events: seq<Event>, event: Event)
    requires ValidSetup(c) && ValidEvents(c, events) && AsksForStep(event.request)
    requires !Run(c, Create(c, candidateId, start), events).row.status.SessionInProgress?
    requires event.request.Resume? || event.request.candidateId == candidateId
    requires event.request.SubmitAnswer? ==> ToAnswer(event.request.dto).Ok?
    ensures Apply(c, Run(c, Create(c, candidateId, start), events), event).1 == Ok(Finished)
  {
    hide Run, FinishedOk, FinishedLiveOk, RunningOk, Advance, Loaded, StartCurrent, ApplyAnswer, ToAnswer, Finalize;
    RunKept(c, candidateId, start, events);
    var w, env := Run(c, Create(c, candidateId, start), events), event.moment;
    RunKeepsOwner(c, Create(c, candidateId, start), events);
    StoredOwner(c, w);
    EndedIsFinished(c, w);
    FinishedLoaded(c, w, env.now);
    var (w1, st) := Loaded(c, env.now, w);
    AdvanceFinished(c, env, w1, st);
    if st.current < |st.modules| && st.modules[st.current].status.Pending? {
      FinishedStart(c, env.now, w1, st);
      var (w2, st2) := StartCurrent(c, env.now, w1, st);
      AdvanceFinished(c, env, w2, st2);
    }
  }

  lemma {:induction false} EndedIsFinished(c: Setup, w: World)
    requires Inv(c, w)
    ensures w.row.status.SessionInProgress? || FinishedOk(c, w)
  {
    hide FinishedOk, LiveOk, LogOk, ResultsOk;
  }

  // ── Who may call, and when the clock starts ──────────────────────────────

  lemma {:induction false} OwnerKept(c: Setup, w: World, event: Event)
    ensures Apply(c, w, event).0.row.candidateId == w.row.candidateId
  {
    hide Advance, Finalize, ApplyAnswer, Rehydrate, ToAnswer;
    var env := event.moment;
    var (w1, st) := Loaded(c, env.now, w);
    AdvanceAppends(c, env, w1, st);
    FinalizeFrame(c, env.now, w1, st, SessionAutoSubmitted);
    if event.request.StartModule? && st.current < |st.modules| {
      var (w2, st2) := StartCurrent(c, env.now, w1, st);
      AdvanceAppends(c, env, w2, st2);
    }
    if event.request.SubmitAnswer? && ToAnswer(event.request.dto).Ok? && st.served.Some? && st.current < |st.modules|
       && ApplyAnswer(c, env, w1, st, st.current, st.served.value, ToAnswer(event.request.dto).value).Ok?
    {
      var answer := ToAnswer(event.request.dto).value;
      ApplyAnswerFrame(c, env, w1, st, st.current, st.served.value, answer);
      var (w2, st2) := ApplyAnswer(c, env, w1, st, st.current, st.served.value, answer).value;
      AdvanceAppends(c, env, w2.(store := Some(st2)), st2);
    }
  }

  lemma {:induction false} RunKeepsOwner(c: Setup, w0: World, events: seq<Event>)
    ensures Run(c, w0, events).row.candidateId == w0.row.candidateId
  {
    hide Apply;
    if events != [] {
      RunKeepsOwner(c, w0, events[..|events| - 1]);
      OwnerKept(c, Run(c, w0, events[..|events| - 1]), events[|events| - 1]);
    }
  }

  /** Over every run, another candidate's call is refused and changes nothing, whether or not the blob is there. */
  lemma {:induction false} StrangersAreRefused(c: Setup, candidateId: CandidateId, start: int, events: seq<Event>,
                                               event: Event)
    requires ValidSetup(c) && ValidEvents(c, events)
    requires event.request.CurrentStep? || event.request.StartModule? || event.request.SubmitAnswer?
    requires event.request.candidateId != candidateId
    ensures var w := Run(c, Create(c, candidateId, start), events);
      Apply(c, w, event).0 == w && Apply(c, w, event).1.Err? && Apply(c, w, event).1.error in {NotFound, BadRequest}
  {
    hide Run, Advance, Loaded, StartCurrentModule, Submit;
    RunKept(c, candidateId, start, events);
    var w := Run(c, Create(c, candidateId, start), events);
    RunKeepsOwner(c, Create(c, candidateId, start), events);
    StoredOwner(c, w);
  }

  lemma {:induction false} StoredOwner(c: Setup, w: World)
    requires Inv(c, w)
    ensures w.store.Some? ==> w.store.value.candidateId == w.row.candidateId
  {
    hide Replay, LogOk, ResultsOk;
  }

  /** The time limits of the modules, in seconds. */
  function Limits(configs: seq<ModuleConfig>): nat {
    if configs == [] then 0 else Limits(configs[..|configs| - 1]) + configs[|configs| - 1].timeLimitSeconds
  }

  lemma {:induction false} BudgetIs(configs: seq<ModuleConfig>)
    ensures BudgetSeconds(configs) == Limits(configs) + 120 * |configs|
  {
    if configs != [] {
      BudgetIs(configs[..|configs| - 1]);
    }
  }

  /** A new session may wait two hours beyond its budget before anything is started. */
  lemma {:induction false} FirstDeadline(c: Setup, candidateId: CandidateId, start: int)
    ensures Create(c, candidateId, start).row.expiresAt
            == start + (Limits(c.configs) + 120 * |c.configs| + 7200) * 1000
  {
    BudgetIs(c.configs);
  }

  /** Starting the first module gives the session its whole budget from that moment on. */
  lemma {:induction false} ClockStartsWithFirstModule(c: Setup, candidateId: CandidateId, start: int, events: seq<Event>,
                                                      env: Moment)
    requires ValidSetup(c) && ValidEvents(c, events) && SelectorOk(c, env)
    requires var w := Run(c, Create(c, candidateId, start), events);
      w.row.status.SessionInProgress? && AllPending(Loaded(c, env.now, w).1.modules)
    ensures var row := Apply(c, Run(c, Create(c, candidateId, start), events), Event(StartModule(candidateId), env)).0.row;
      row.startedAt == env.now && row.expiresAt == env.now + (Limits(c.configs) + 120 * |c.configs|) * 1000
  {
    hide Run, DbOk, LiveOk, FinishedOk, Loaded, Advance, SelectorOk;
    RunKept(c, candidateId, start, events);
    var w := Run(c, Create(c, candidateId, start), events);
    RunKeepsOwner(c, Create(c, candidateId, start), events);
    StoredOwner(c, w);
    RunningFromRow(c, w);
    var f :| RunningOk(c, w, f);
    LoadedOk(c, w, f, env.now);
    var (w1, st) := Loaded(c, env.now, w);
    LiveFacts(c, w1, f, st);
    assert st.modules[st.current] in st.modules;
    StartKept(c, env.now, w1, f, st);
    ConfigsMatch(c, w1, f, st);
    assert ConfigsOf(st.modules) == c.configs;
    BudgetIs(c.configs);
    var (w2, st2) := StartCurrent(c, env.now, w1, st);
    AdvanceTells(c, env, w2, f, st2);
  }

}
