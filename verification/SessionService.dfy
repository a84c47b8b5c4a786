/**
 * The session service itself: requests that update the live state in place, module by module, and the
 * rows as they go. Every request is proved to do exactly what `SessionRuntime.Apply` says.
 */
module SessionService {
  import opened Wrappers
  import opened EngineTypes
  import opened AdaptiveEngine
  import opened SessionRuntime
  import opened RunState

  lemma {:induction false} PersistNone(scoring: Scoring, results: map<ModuleId, ModuleResult>)
    ensures PersistAll(scoring, [], results) == results
  {
  }

  lemma {:induction false} PersistNext(scoring: Scoring, ms: seq<ModuleRun>, i: nat, results: map<ModuleId, ModuleResult>)
    requires i < |ms|
    ensures PersistAll(scoring, ms[..i + 1], results)
            == PersistAll(scoring, ms[..i], results)[ms[i].config.moduleId := ResultOf(scoring, ms[i])]
  {
    assert ms[..i + 1][..i] == ms[..i];
  }

  lemma {:induction false} FinalizeIs(c: Setup, now: int, w: World, st: Live, status: SessionStatus)
    ensures st.finished ==> Finalize(c, now, w, st, status) == w
    ensures !st.finished ==>
      var modules := CutOffAll(st.modules, now);
      Finalize(c, now, w, st, status)
      == World(w.row.(status := status, submittedAt := Some(now)), w.responses,
               PersistAll(c.scoring, modules, w.results), Some(st.(modules := modules, finished := true, served := None)))
  {
    hide CutOffAll, PersistAll;
  }

  lemma {:induction false} RehydrateIs(c: Setup, now: int, w: World)
    ensures var modules := SettleAll(Replay(c, w.responses), w.results, now);
      Rehydrate(c, now, w)
      == Live(w.row.candidateId, w.row.startedAt, w.row.expiresAt, !w.row.status.SessionInProgress?,
              modules, FirstUnfinishedFrom(modules, 0), None, |w.responses|)
  {
    hide SettleAll, Replay, FirstUnfinishedFrom;
  }

  lemma {:induction false} ReplayNone(c: Setup)
    ensures Replay(c, []) == FreshModules(c.configs)
  {
  }

  lemma {:induction false} ReplayNext(c: Setup, log: seq<Response>, k: nat)
    requires k < |log|
    ensures Replay(c, log[..k + 1]) == ReplayInto(c, Replay(c, log[..k]), log[k])
  {
    assert log[..k + 1][..k] == log[..k];
  }

  class SessionsService {
    const setup: Setup
    var row: SessionRow
    var responses: seq<Response>
    var results: map<ModuleId, ModuleResult>
    var store: Option<Live>

    function Rows(): World
      reads this
    {
      World(row, responses, results, store)
    }

    /** `createSession`, up to the first pass over the fresh state. */
    constructor (setup: Setup, candidateId: CandidateId, now: int)
      ensures this.setup == setup && Rows() == Create(setup, candidateId, now)
    {
      this.setup := setup;
      var w := Create(setup, candidateId, now);
      row, responses, results, store := w.row, w.responses, w.results, w.store;
    }

    method Save(state: SessionState)
      modifies this`store
      ensures store == Some(state.Snapshot())
    {
      store := Some(state.Snapshot());
    }

    // ── Closing ────────────────────────────────────────────────────────────

    method PersistModuleResult(m: ModuleRunState)
      modifies this`results
      ensures results == old(results)[m.config.moduleId := ResultOf(setup.scoring, m.Snapshot())]
    {
      results := results[m.config.moduleId := ResultOf(setup.scoring, m.Snapshot())];
    }

    method CutShortAndPersist(now: int, m: ModuleRunState)
      modifies this`results, m
      ensures m.Snapshot() == CutOff(old(m.Snapshot()), now)
      ensures results == old(results)[m.config.moduleId := ResultOf(setup.scoring, m.Snapshot())]
    {
      m.CutShort(now);
      PersistModuleResult(m);
    }

    /** Cuts off whatever is running and gives every module its row. */
    method CloseModules(now: int, state: SessionState)
      requires state.Valid()
      modifies this`results, state.modules
      ensures state.ModuleSnapshots() == CutOffAll(old(state.ModuleSnapshots()), now)
      ensures results == PersistAll(setup.scoring, state.ModuleSnapshots(), old(results))
    {
      hide CutOff, ResultOf, PersistAll;
      PersistNone(setup.scoring, results);
      ghost var ms := state.ModuleSnapshots();
      ghost var cut := CutOffAll(ms, now);
      var i := 0;
      while i < |state.modules|
        invariant 0 <= i <= |state.modules|
        invariant forall j :: 0 <= j < i ==> state.modules[j].Snapshot() == cut[j]
        invariant forall j :: i <= j < |state.modules| ==> state.modules[j].Snapshot() == ms[j]
        invariant results == PersistAll(setup.scoring, cut[..i], old(results))
      {
        CutShortAndPersist(now, state.modules[i]);
        PersistNext(setup.scoring, cut, i, old(results));
        i := i + 1;
      }
      assert cut[..i] == cut == state.ModuleSnapshots();
    }

    /** Closes the session out; a second call changes nothing. */
    method FinalizeSession(now: int, state: SessionState, status: SessionStatus)
      requires state.Valid()
      modifies this, state, state.modules
      ensures Rows() == Finalize(setup, now, old(Rows()), old(state.Snapshot()), status)
      ensures state.finished
    {
      hide CutOffAll, PersistAll, Finalize;
      FinalizeIs(setup, now, Rows(), state.Snapshot(), status);
      if state.finished {
        return;
      }
      CloseModules(now, state);
      state.finished, state.served := true, None;
      Save(state);
      row := row.(status := status, submittedAt := Some(now));
    }

    // ── Answers ────────────────────────────────────────────────────────────

    /** Scores the answer and inserts its row. After an error the database is untouched; the state is discarded. */
    method RecordResponse(env: Moment, state: SessionState, i: nat, served: Served, answer: Answer)
      returns (error: Option<Error>)
      requires state.Valid() && i < |state.modules|
      modifies this`responses, state, state.modules
      ensures match ApplyAnswer(setup, env, old(Rows()), old(state.Snapshot()), i, served, answer)
        case Ok((w, st)) => error.None? && Rows() == w && state.Snapshot() == st
        case Err(e) => error == Some(e) && Rows() == old(Rows())
    {
      hide RecordAnswer, ResponseFor, Answered;
      var id := served.questionId;
      if id !in setup.bank {
        return Some(NotFound);
      }
      var m := state.modules[i];
      state.answeredTotal := state.answeredTotal + 1;
      var outcome := m.Record(setup.scoring, id, setup.bank[id], answer, state.answeredTotal, env.difficulty(id));
      if outcome.Err? {
        return Some(outcome.error);
      }
      assert state.ModuleSnapshots() == old(state.ModuleSnapshots())[i := m.Snapshot()];
      if Answered(responses, id) {
        return Some(UniqueViolation);
      }
      responses := responses + [ResponseFor(m.config.moduleId, id, answer, outcome.value, state.answeredTotal,
                                            served.servedAt, env.now)];
      state.served := None;
      error := None;
    }

    /** Scores a question still on screen as unanswered, then closes the module and stores its result. */
    method CloseModule(env: Moment, state: SessionState, i: nat, reason: StopReason) returns (error: Option<Error>)
      requires state.Valid() && i < |state.modules|
      modifies this`responses, this`results, state, state.modules
      ensures match CompleteModule(setup, env, old(Rows()), old(state.Snapshot()), i, reason)
        case Ok((w, st)) => error.None? && Rows() == w && state.Snapshot() == st
        case Err(e) => error == Some(e) && Rows() == old(Rows())
    {
      hide ApplyAnswer, CloseWith;
      if state.served.Some? && state.served.value.moduleId == state.modules[i].config.moduleId {
        error := RecordResponse(env, state, i, state.served.value, Unanswered);
        if error.Some? {
          return;
        }
      }
      error := None;
      MarkClosed(env.now, state, i, reason);
    }

    method MarkClosed(now: int, state: SessionState, i: nat, reason: StopReason)
      requires state.Valid() && i < |state.modules|
      modifies this`results, state.modules
      ensures (Rows(), state.Snapshot())
              == CloseWith(setup, now, old(Rows()), old(state.Snapshot()), i, reason)
    {
      hide ResultOf;
      var m := state.modules[i];
      m.status, m.completedAt, m.stopReason := Completed, Some(now), Some(reason);
      PersistModuleResult(m);
      assert state.ModuleSnapshots() == old(state.ModuleSnapshots())[i := m.Snapshot()];
    }

    // ── Driving the session forward ────────────────────────────────────────

    /** Puts a question on screen: consumed when served, not when answered. */
    method ServeQuestion(env: Moment, state: SessionState, id: QuestionId)
      requires state.Valid() && state.current < |state.modules| && id in setup.bank
      modifies this`store, state, state.modules
      ensures Rows() == old(Rows()).(store := Some(Serve(setup, env, old(state.Snapshot()), id)))
    {
      hide MarkProbeServed;
      var m := state.modules[state.current];
      ghost var before := state.ModuleSnapshots();
      state.served := Some(Served(id, m.config.moduleId, env.now));
      m.seen := m.seen + [id];
      m.MarkServedGroup(setup.bank[id]);
      assert state.ModuleSnapshots() == before[state.current := m.Snapshot()];
      Save(state);
    }

    /**
     * Loops until there is something for the candidate. Every pass that continues moves the index on by
     * one, so the guard of two passes per module and three more is never used up.
     */
    method AdvanceSession(env: Moment, state: SessionState) returns (reply: Reply)
      requires state.Valid()
      modifies this, state, state.modules
      ensures (Rows(), reply) == Advance(setup, env, old(Rows()), old(state.Snapshot()))
      ensures reply != Err(NotAdvanced)
    {
      hide Advance, Finalize, CompleteModule, Serve, NextStepFor, TimedOut;
      if state.finished {
        AdvanceFinished(setup, env, Rows(), state.Snapshot());
        return Ok(Finished);
      }
      ghost var st0 := state.Snapshot();
      for guard := 0 to 2 * |state.modules| + 3
        invariant state.current == st0.current + guard && (guard > 0 ==> state.current <= |state.modules|)
        invariant !state.finished
        invariant Advance(setup, env, Rows(), state.Snapshot()) == Advance(setup, env, old(Rows()), st0)
      {
        if env.now >= state.expiresAt {
          AdvanceEnds(setup, env, Rows(), state.Snapshot());
          FinalizeSession(env.now, state, SessionAutoSubmitted);
          return Ok(Finished);
        }
        if state.current >= |state.modules| {
          AdvanceEnds(setup, env, Rows(), state.Snapshot());
          FinalizeSession(env.now, state, SessionCompleted);
          return Ok(Finished);
        }
        AdvanceRests(setup, env, Rows(), state.Snapshot());
        var m := state.modules[state.current];
        if m.status.Completed? {
          state.current := state.current + 1;
          Save(state);
          continue;
        }
        if m.status.Pending? {
          return Ok(ModuleIntro(state.current));
        }
        if state.served.Some? && state.served.value.moduleId == m.config.moduleId
           && !TimedOut(m.Snapshot(), env.now)
        {
          var id := state.served.value.questionId;
          return if id in setup.bank then Ok(OnScreen(id, state.answeredTotal + 1)) else Err(NotFound);
        }
        var step := StepModule(env, state);
        if step.Some? {
          return step.value;
        }
      }
      assert false;
      reply := Err(NotAdvanced);
    }

    /** Asks the engine what comes next in the running module: a question to serve, or the end of the module. */
    method StepModule(env: Moment, state: SessionState) returns (reply: Option<Reply>)
      requires state.Valid() && !state.finished && env.now < state.expiresAt
      requires state.current < |state.modules| && state.modules[state.current].status.InProgress?
      requires var m := state.modules[state.current];
        state.served.Some? && state.served.value.moduleId == m.config.moduleId ==> TimedOut(m.Snapshot(), env.now)
      modifies this, state, state.modules
      ensures reply.Some? ==>
        && (Rows(), reply.value) == Advance(setup, env, old(Rows()), old(state.Snapshot()))
        && reply.value != Err(NotAdvanced)
      ensures reply.None? ==>
        && state.current == old(state.current) + 1 && !state.finished
        && Advance(setup, env, Rows(), state.Snapshot()) == Advance(setup, env, old(Rows()), old(state.Snapshot()))
    {
      hide Advance, Finalize, CompleteModule, Serve, NextStepFor;
      AdvanceMoves(setup, env, Rows(), state.Snapshot());
      match NextStepFor(setup.scoring, state.modules[state.current].Snapshot(), env.now, env.select)
      case ServeQuestion(id) =>
        if id !in setup.bank {
          return Some(Err(NotFound));
        }
        reply := Some(Ok(OnScreen(id, state.answeredTotal + 1)));
        ServeQuestion(env, state, id);
      case ModuleComplete(reason) =>
        var error := CloseModule(env, state, state.current, reason);
        if error.Some? {
          return Some(Err(error.value));
        }
        reply := None;
        state.current := state.current + 1;
        Save(state);
    }

    // ── Loading and rebuilding ─────────────────────────────────────────────

    method NewModules(ms: seq<ModuleRun>) returns (modules: seq<ModuleRunState>)
      ensures |modules| == |ms|
      ensures fresh(modules)
      ensures forall i :: 0 <= i < |ms| ==> modules[i].Snapshot() == ms[i]
      ensures forall i, j :: 0 <= i < j < |modules| ==> modules[i] != modules[j]
    {
      modules := [];
      while |modules| < |ms|
        invariant |modules| <= |ms|
        invariant fresh(modules)
        invariant forall i :: 0 <= i < |modules| ==> modules[i].Snapshot() == ms[i]
        invariant forall i, j :: 0 <= i < j < |modules| ==> modules[i] != modules[j]
      {
        var m := new ModuleRunState(ms[|modules|]);
        modules := modules + [m];
      }
    }

    /** Replays every stored response, in order, into the module it names. */
    method ReplayResponses(modules: seq<ModuleRunState>)
      requires |modules| == |setup.configs|
      requires forall i :: 0 <= i < |modules| ==> modules[i].Snapshot() == CreateModuleState(setup.configs[i])
      requires forall i, j :: 0 <= i < j < |modules| ==> modules[i] != modules[j]
      modifies modules
      ensures forall i :: 0 <= i < |modules| ==> modules[i].Snapshot() == Replay(setup, responses)[i]
    {
      hide ReplayAnswer, Replay;
      var k := 0;
      ReplayNone(setup);
      assert responses[..0] == [];
      while k < |responses|
        invariant 0 <= k <= |responses|
        invariant forall i :: 0 <= i < |modules| ==> modules[i].Snapshot() == Replay(setup, responses[..k])[i]
      {
        var r := responses[k];
        ghost var before := Replay(setup, responses[..k]);
        var i := FindModule(modules, r.moduleId, before);
        if i < |modules| && r.questionId in setup.bank {
          modules[i].Replay(setup.scoring, r, setup.bank[r.questionId]);
        }
        ReplayNext(setup, responses, k);
        k := k + 1;
      }
      assert responses[..k] == responses;
    }

    method FindModule(modules: seq<ModuleRunState>, id: ModuleId, ghost ms: seq<ModuleRun>) returns (i: nat)
      requires |ms| == |modules| && forall j :: 0 <= j < |ms| ==> modules[j].Snapshot() == ms[j]
      ensures i == FindModuleFrom(ms, id, 0)
    {
      i := 0;
      while i < |modules| && modules[i].config.moduleId != id
        invariant 0 <= i <= |modules|
        invariant FindModuleFrom(ms, id, i) == FindModuleFrom(ms, id, 0)
      {
        assert modules[i].Snapshot().config == modules[i].config;
        i := i + 1;
      }
    }

    method SettleModules(modules: seq<ModuleRunState>, now: int)
      requires forall i, j :: 0 <= i < j < |modules| ==> modules[i] != modules[j]
      modifies modules
      ensures forall i :: 0 <= i < |modules| ==> modules[i].Snapshot() == Settle(old(modules[i].Snapshot()), results, now)
    {
      hide Settle;
      for i := 0 to |modules|
        invariant forall j :: 0 <= j < i ==> modules[j].Snapshot() == Settle(old(modules[j].Snapshot()), results, now)
        invariant forall j :: i <= j < |modules| ==> modules[j].Snapshot() == old(modules[j].Snapshot())
      {
        modules[i].SettleFrom(results, now);
      }
    }

    method FirstUnfinished(modules: seq<ModuleRunState>, ghost ms: seq<ModuleRun>) returns (i: nat)
      requires |ms| == |modules| && forall j :: 0 <= j < |ms| ==> modules[j].Snapshot() == ms[j]
      ensures i == FirstUnfinishedFrom(ms, 0)
    {
      i := 0;
      while i < |modules| && modules[i].status.Completed?
        invariant 0 <= i <= |modules|
        invariant FirstUnfinishedFrom(ms, i) == FirstUnfinishedFrom(ms, 0)
      {
        assert modules[i].Snapshot().status == modules[i].status;
        i := i + 1;
      }
    }

    method RebuildModules(now: int) returns (modules: seq<ModuleRunState>)
      ensures fresh(modules) && |modules| == |setup.configs|
      ensures forall i, j :: 0 <= i < j < |modules| ==> modules[i] != modules[j]
      ensures forall i :: 0 <= i < |modules| ==>
                modules[i].Snapshot() == SettleAll(Replay(setup, responses), results, now)[i]
    {
      hide Replay, Settle;
      modules := NewModules(FreshModules(setup.configs));
      ReplayResponses(modules);
      SettleModules(modules, now);
    }

    /** Rebuilds the live state from the rows after the store has lost it, and saves it. */
    method RebuildState(now: int) returns (state: SessionState)
      modifies this`store
      ensures fresh(state) && state.Valid() && fresh(state.modules)
      ensures state.Snapshot() == Rehydrate(setup, now, old(Rows()))
      ensures Rows() == old(Rows()).(store := Some(state.Snapshot()))
    {
      hide SettleAll, Replay, Rehydrate, FirstUnfinishedFrom;
      RehydrateIs(setup, now, Rows());
      var modules := RebuildModules(now);
      ghost var settled := SettleAll(Replay(setup, responses), results, now);
      var current := FirstUnfinished(modules, settled);
      state := new SessionState(row.candidateId, modules, row.startedAt, row.expiresAt,
                                !row.status.SessionInProgress?, current, None, |responses|);
      assert state.ModuleSnapshots() == settled;
      Save(state);
    }

    /** The state a request works on: parsed from the store, or rebuilt. */
    method LoadState(now: int) returns (state: SessionState)
      modifies this`store
      ensures fresh(state) && state.Valid() && fresh(state.modules)
      ensures (Rows(), state.Snapshot()) == Loaded(setup, now, old(Rows()))
    {
      hide Rehydrate;
      if store.None? {
        state := RebuildState(now);
        return;
      }
      var st := store.value;
      var modules := NewModules(st.modules);
      state := new SessionState(st.candidateId, modules, st.startedAt, st.expiresAt,
                                st.finished, st.current, st.served, st.answeredTotal);
      assert state.ModuleSnapshots() == st.modules;
    }

    // ── Requests ───────────────────────────────────────────────────────────

    /** Puts start and deadline, in the row and in the live state, at `now` and at `now` plus the budget. */
    method BeginSessionClock(now: int, state: SessionState)
      modifies this`row, state
      ensures var expiresAt := now + BudgetSeconds(ConfigsOf(old(state.ModuleSnapshots()))) * 1000;
        && row == old(row).(startedAt := now, expiresAt := expiresAt)
        && state.Snapshot() == old(state.Snapshot()).(startedAt := now, expiresAt := expiresAt)
    {
      ghost var configs := ConfigsOf(state.ModuleSnapshots());
      var budget := 0;
      for i := 0 to |state.modules|
        invariant budget == BudgetSeconds(configs[..i]) * 1000
      {
        budget := budget
          + (state.modules[i].config.timeLimitSeconds + INTERMISSION_SECONDS_PER_MODULE) * 1000;
        assert configs[..i + 1][..i] == configs[..i];
      }
      assert configs[..|state.modules|] == configs;
      state.startedAt, state.expiresAt := now, now + budget;
      row := row.(startedAt := now, expiresAt := state.expiresAt);
    }

    method NothingStarted(state: SessionState) returns (b: bool)
      ensures b == AllPending(state.ModuleSnapshots())
    {
      b := forall i :: 0 <= i < |state.modules| ==> state.modules[i].status.Pending?;
      ghost var ms := state.ModuleSnapshots();
      assert forall i :: 0 <= i < |ms| ==> ms[i] in ms && ms[i].status == state.modules[i].status;
    }

    method BeginCurrent(now: int, state: SessionState)
      requires state.Valid() && state.current < |state.modules|
      modifies this, state, state.modules
      ensures (Rows(), state.Snapshot()) == StartCurrent(setup, now, old(Rows()), old(state.Snapshot()))
    {
      hide BeginModule, BudgetSeconds, AllPending;
      ghost var before := state.ModuleSnapshots();
      // Begin makes this false.
      var isFirst := NothingStarted(state);
      BeginKeepsConfig(before[state.current], now);
      state.modules[state.current].Begin(now);
      assert state.ModuleSnapshots() == before[state.current := BeginModule(before[state.current], now)];
      if isFirst {
        assert ConfigsOf(state.ModuleSnapshots()) == ConfigsOf(before);
        BeginSessionClock(now, state);
      }
      Save(state);
    }

    lemma {:induction false} BeginKeepsConfig(m: ModuleRun, now: int)
      ensures BeginModule(m, now).config == m.config
    {
    }

    method StartModuleNow(env: Moment) returns (reply: Reply)
      modifies this
      ensures (Rows(), reply) == StartCurrentModule(setup, env, old(Rows()))
    {
      hide Loaded, Advance, StartCurrent;
      var state := LoadState(env.now);
      if state.current < |state.modules| && state.modules[state.current].status.Pending? {
        BeginCurrent(env.now, state);
      }
      reply := AdvanceSession(env, state);
    }

    /** Records an answer to the question on screen and moves on. */
    method SubmitTo(env: Moment, questionId: QuestionId, answer: Answer) returns (reply: Reply)
      modifies this
      ensures (Rows(), reply) == Submit(setup, env, old(Rows()), questionId, answer)
    {
      hide Loaded, Advance, Finalize, ApplyAnswer;
      var state := LoadState(env.now);
      if state.finished {
        reply := AdvanceSession(env, state);
        return;
      }
      if env.now >= state.expiresAt {
        FinalizeSession(env.now, state, SessionAutoSubmitted);
        return Ok(Finished);
      }
      if state.served.None? || state.served.value.questionId != questionId {
        return Err(Conflict);
      }
      if state.current >= |state.modules|
         || state.modules[state.current].config.moduleId != state.served.value.moduleId
      {
        return Err(Conflict);
      }
      var m := state.modules[state.current];
      if m.deadlineAt.Some? && env.now > m.deadlineAt.value + ANSWER_GRACE_MS {
        reply := AdvanceSession(env, state);
        return;
      }
      var error := RecordResponse(env, state, state.current, state.served.value, answer);
      if error.Some? {
        return Err(error.value);
      }
      Save(state);
      reply := AdvanceSession(env, state);
    }

    /** Every request, and the loss of the blob, does what the state machine says. */
    method Handle(event: Event) returns (reply: Reply)
      modifies this
      ensures (Rows(), reply) == Apply(setup, old(Rows()), event)
    {
      hide Loaded, Advance, Finalize, StartCurrentModule, Submit;
      var env := event.moment;
      match event.request
      case Resume =>
        if !row.status.SessionInProgress? {
          return Ok(Finished);
        }
        var state := LoadState(env.now);
        reply := AdvanceSession(env, state);
      case CurrentStep(candidateId) =>
        if !Owns(Rows(), candidateId) {
          return Err(NotFound);
        }
        var state := LoadState(env.now);
        reply := AdvanceSession(env, state);
      case StartModule(candidateId) =>
        if !Owns(Rows(), candidateId) {
          return Err(NotFound);
        }
        reply := StartModuleNow(env);
      case SubmitAnswer(candidateId, dto) =>
        var answer := ToAnswer(dto);
        if answer.Err? {
          return Err(BadRequest);
        }
        if !Owns(Rows(), candidateId) {
          return Err(NotFound);
        }
        reply := SubmitTo(env, dto.questionId, answer.value);
      case AutoSubmit =>
        if !row.status.SessionInProgress? {
          return Ok(Finished);
        }
        var state := LoadState(env.now);
        FinalizeSession(env.now, state, SessionAutoSubmitted);
        reply := Ok(Finished);
      case LoseState =>
        store := None;
        reply := Ok(Finished);
    }
  }
}
