/** What holds of a candidate session after every run of requests, losses and rebuilds. */
module SessionTheorems {
  import opened Wrappers
  import opened Rounding
  import opened EngineTypes
  import opened AdaptiveEngine
  import opened SessionRuntime
  import opened SessionReplay
  import opened SessionInvariant

  // ── The rebuild simulates the live run ───────────────────────────────────

  /**
   * How a module rebuilt at `now` compares with the live one it replaces: only the question on screen is
   * gone, the estimates are at two decimals, and a module that is still running gets a fresh clock.
   */
  predicate Recovers(c: Setup, r: ModuleRun, m: ModuleRun, shown: Option<QuestionId>, now: int) {
    && r.config == m.config
    && r.answered == m.answered && r.correct == m.correct
    && r.traitTallies == m.traitTallies && r.patternCounts == m.patternCounts && r.probes == m.probes
    && r.seen + (if shown.Some? then [shown.value] else []) == m.seen
    && (if shown.None? then m.servedGroups == r.servedGroups
        else shown.value in c.bank
             && m.servedGroups == MarkServed(r.servedGroups, c.bank[shown.value].probeGroup))
    && r.ability == Round2(m.ability)
    && r.recentAbilities == RoundAll(m.recentAbilities)
    && match m.status
       case Completed =>
         && r.status.Completed? && r.stopReason == m.stopReason && r.completedAt == m.completedAt
         && r.startedAt.None? && r.deadlineAt.None?
       case Pending => r.status.Pending? && r.startedAt.None? && r.deadlineAt.None?
       case InProgress =>
         if m.answered == 0 then r.status.Pending? && r.startedAt.None? && r.deadlineAt.None?
         else && r.status.InProgress? && r.startedAt == Some(now)
              && r.deadlineAt == Some(now + m.config.timeLimitSeconds * 1000)
  }

  lemma {:induction false} ModuleRecovered(c: Setup, w: World, f: nat, st: Live, i: nat, now: int)
    requires ValidSetup(c) && DbOk(c, w, f) && LiveOk(c, w, f, st) && i < |c.configs|
    requires FromLog(Replay(c, w.responses)[i], c.configs[i])
    ensures Recovers(c, Settle(Replay(c, w.responses)[i], w.results, now), st.modules[i], ShownIn(st, i), now)
  {
    hide Replay, LogOk, SameScores, RoundAll, Fits, Mirrors, FromLog, Recovers, Settle, Closed;
    assert Mirrors(c, Replay(c, w.responses)[i], st.modules[i], ShownIn(st, i)) && StatusOk(w, st.modules[i], i, f);
    assert if i < f then Closed(w.results, c.configs[i].moduleId) else c.configs[i].moduleId !in w.results;
    SettledRecovers(c, w, Replay(c, w.responses)[i], st.modules[i], ShownIn(st, i), i, f, now);
  }

  lemma {:induction false} SettledRecovers(c: Setup, w: World, r: ModuleRun, m: ModuleRun, shown: Option<QuestionId>,
                                           i: nat, f: nat, now: int)
    requires i < |c.configs| && FromLog(r, c.configs[i]) && Mirrors(c, r, m, shown) && StatusOk(w, m, i, f)
    requires if i < f then Closed(w.results, c.configs[i].moduleId) else c.configs[i].moduleId !in w.results
    ensures Recovers(c, Settle(r, w.results, now), m, shown, now)
  {
    hide RoundAll, Round2;
  }

  /**
   * In every reachable running session, losing the live state and rebuilding it from the rows gives back
   * every module: the counts, tallies, patterns and probe pairs exactly, the seen ids and served groups
   * less those of the question on screen, and the estimates at two decimals - however many answers were
   * given and however often the state was rebuilt before. A running module with answers gets a fresh clock,
   * and a started one with none comes back pending.
   */
  lemma {:induction false} RebuildSimulates(c: Setup, candidateId: CandidateId, start: int, events: seq<Event>,
                                            now: int)
    requires ValidSetup(c) && ValidEvents(c, events)
    ensures var w := Run(c, Create(c, candidateId, start), events);
      w.row.status.SessionInProgress? && w.store.Some? ==>
        var st, back := w.store.value, Rehydrate(c, now, w);
        && |back.modules| == |st.modules| == |c.configs|
        && (forall i :: 0 <= i < |c.configs| ==> Recovers(c, back.modules[i], st.modules[i], ShownIn(st, i), now))
        && back.current == st.current && back.answeredTotal == st.answeredTotal
        && back.startedAt == st.startedAt && back.expiresAt == st.expiresAt && !back.finished
  {
    hide Run, Recovers, Settle;
    var w := Run(c, Create(c, candidateId, start), events);
    RunKept(c, candidateId, start, events);
    if w.row.status.SessionInProgress? && w.store.Some? {
      var f :| RunningOk(c, w, f);
      LogRows(c, w.responses, w.row.expiresAt);
      ReplayFacts(c, w.responses);
      RehydrateOk(c, w, f, now);
      forall i | 0 <= i < |c.configs|
        ensures Recovers(c, Rehydrate(c, now, w).modules[i], w.store.value.modules[i], ShownIn(w.store.value, i), now)
      {
        ModuleRecovered(c, w, f, w.store.value, i, now);
      }
    }
  }

  // ── Modules, screen and order ────────────────────────────────────────────

  /** Modules close in order, and a question is only ever on screen in the running current module. */
  predicate InOrder(st: Live) {
    && st.current < |st.modules|
    && (forall i :: 0 <= i < st.current ==> st.modules[i].status.Completed?)
    && (forall i :: st.current < i < |st.modules| ==> st.modules[i].status.Pending?)
    && !st.modules[st.current].status.Completed?
    && (st.served.Some? ==>
          && st.modules[st.current].status.InProgress?
          && st.served.value.moduleId == st.modules[st.current].config.moduleId)
  }

  lemma {:induction false} RunningInOrder(c: Setup, w: World, f: nat)
    requires RunningOk(c, w, f) && w.store.Some?
    ensures InOrder(w.store.value)
  {
    hide Mirrors;
    LiveFacts(c, w, f, w.store.value);
    assert forall i :: 0 <= i < |c.configs| ==> StatusOk(w, w.store.value.modules[i], i, f);
  }

  lemma {:induction false} SessionInOrder(c: Setup, candidateId: CandidateId, start: int, events: seq<Event>)
    requires ValidSetup(c) && ValidEvents(c, events)
    ensures var w := Run(c, Create(c, candidateId, start), events);
      w.row.status.SessionInProgress? && w.store.Some? ==> InOrder(w.store.value)
  {
    hide Run, InOrder;
    RunKept(c, candidateId, start, events);
    var w := Run(c, Create(c, candidateId, start), events);
    if w.row.status.SessionInProgress? && w.store.Some? {
      var f :| RunningOk(c, w, f);
      RunningInOrder(c, w, f);
    }
  }

  /**
   * The one call that leaves a running module with an empty screen: an answer that reaches an unexpired
   * session whose loaded state has no question up - because the state had to be rebuilt, or because an
   * earlier such call left it so. The call is refused, but the state it loaded has been saved.
   */
  predicate Strands(c: Setup, w: World, event: Event) {
    && event.request.SubmitAnswer? && ToAnswer(event.request.dto).Ok? && Owns(w, event.request.candidateId)
    && w.row.status.SessionInProgress? && event.moment.now < w.row.expiresAt
    && var st := Loaded(c, event.moment.now, w).1;
       st.served.None? && st.current < |st.modules| && st.modules[st.current].status.InProgress?
  }

  /**
   * After a request on a running session, a question is on screen exactly when the current module is
   * running - if and only if the request was not one of those.
   */
  lemma {:induction false} ScreenAfterRequest(c: Setup, w: World, f: nat, event: Event)
    requires ValidSetup(c) && SelectorOk(c, event.moment) && RunningOk(c, w, f) && ScreenMatchesModule(w)
    ensures ScreenMatchesModule(Apply(c, w, event).0) <==> !Strands(c, w, event)
  {
    hide DbOk, LiveOk, RunningOk, FinishedOk, Loaded, Advance, Finalize, StartCurrentModule, SelectorOk;
    var env := event.moment;
    LoadedOk(c, w, f, env.now);
    var (w1, st) := Loaded(c, env.now, w);
    DbFacts(c, w1, f);
    LiveFacts(c, w1, f, st);
    LoadedRow(c, w, env.now);
    AdvanceKept(c, env, w1, f, st);
    StartModuleKept(c, env, w, f);
    FinalizeEnds(c, env.now, w1, st, SessionAutoSubmitted);
    if event.request.SubmitAnswer? && ToAnswer(event.request.dto).Ok? && Owns(w, event.request.candidateId) {
      ScreenAfterSubmit(c, env, w, f, event.request.dto.questionId, ToAnswer(event.request.dto).value);
    }
  }

  lemma {:induction false} LoadedRow(c: Setup, w: World, now: int)
    ensures var w1 := Loaded(c, now, w).0; w1.row == w.row && w1.responses == w.responses && w1.results == w.results
    ensures w.store.Some? ==> Loaded(c, now, w) == (w, w.store.value)
  {
  }

  lemma {:induction false} FinalizeEnds(c: Setup, now: int, w: World, st: Live, status: SessionStatus)
    requires !st.finished
    ensures Finalize(c, now, w, st, status).row.status == status
  {
  }

  lemma {:induction false} ScreenAfterSubmit(c: Setup, env: Moment, w: World, f: nat, id: QuestionId, answer: Answer)
    requires ValidSetup(c) && SelectorOk(c, env) && RunningOk(c, w, f) && ScreenMatchesModule(w)
    requires answer.Ranked? ==> |answer.options| > 0
    ensures var st := Loaded(c, env.now, w).1;
      ScreenMatchesModule(Submit(c, env, w, id, answer).0)
      <==> !(env.now < w.row.expiresAt && st.served.None? && st.current < |st.modules|
             && st.modules[st.current].status.InProgress?)
  {
    hide DbOk, LiveOk, RunningOk, FinishedOk, Loaded, Advance, Finalize, ApplyAnswer, SelectorOk;
    LoadedOk(c, w, f, env.now);
    LoadedRow(c, w, env.now);
    var (w1, st) := Loaded(c, env.now, w);
    DbFacts(c, w1, f);
    LiveFacts(c, w1, f, st);
    FinalizeEnds(c, env.now, w1, st, SessionAutoSubmitted);
    if st.served.Some? && st.served.value.questionId == id && env.now < st.expiresAt {
      AdvanceKept(c, env, w1, f, st);
      if ApplyAnswer(c, env, w1, st, f, st.served.value, answer).Ok? {
        AnswerKept(c, env, w1, f, st, answer);
        var (w2, st2) := ApplyAnswer(c, env, w1, st, f, st.served.value, answer).value;
        StoreFree(c, w2, f, Some(st2));
        AdvanceKept(c, env, w2.(store := Some(st2)), f, st2);
      }
    }
  }

  /** Over any run without such a call, the screen is in step with the current module after every request. */
  lemma {:induction false} ScreenOverRuns(c: Setup, candidateId: CandidateId, start: int, events: seq<Event>)
    requires ValidSetup(c) && ValidEvents(c, events)
    requires forall k :: 0 <= k < |events| ==>
      !Strands(c, Run(c, Create(c, candidateId, start), events[..k]), events[k])
    ensures ScreenMatchesModule(Run(c, Create(c, candidateId, start), events))
  {
    hide Apply, FinishedOk, RunningOk, SelectorOk, Strands, ScreenMatchesModule;
    var w0 := Create(c, candidateId, start);
    if events == [] {
      FreshScreen(c, candidateId, start);
    } else {
      var last := |events| - 1;
      forall k | 0 <= k < last
        ensures !Strands(c, Run(c, w0, events[..last][..k]), events[..last][k])
      {
        assert events[..last][..k] == events[..k] && events[..last][k] == events[k];
      }
      ScreenOverRuns(c, candidateId, start, events[..last]);
      RunKept(c, candidateId, start, events[..last]);
      var w := Run(c, w0, events[..last]);
      if FinishedOk(c, w) {
        FinishedApply(c, w, events[last]);
        FinishedScreen(c, Apply(c, w, events[last]).0);
      } else {
        var f :| RunningOk(c, w, f);
        ScreenAfterRequest(c, w, f, events[last]);
      }
    }
  }

  lemma {:induction false} FreshScreen(c: Setup, candidateId: CandidateId, start: int)
    requires ValidSetup(c)
    ensures ScreenMatchesModule(Create(c, candidateId, start))
  {
  }

  lemma {:induction false} FinishedScreen(c: Setup, w: World)
    requires FinishedOk(c, w)
    ensures ScreenMatchesModule(w)
  {
  }

  // ── Conservation ─────────────────────────────────────────────────────────

  /** Rows are numbered 1..n, and no question has two of them. */
  predicate NumberedOnce(log: seq<Response>) {
    && (forall k :: 0 <= k < |log| ==> log[k].sequenceNumber == k + 1)
    && (forall j, k :: 0 <= j < k < |log| ==> log[j].questionId != log[k].questionId)
  }

  /** Every question shown is accounted for: answered, or the one on screen. */
  predicate ShownAccounted(c: Setup, st: Live) {
    |st.modules| == |c.configs| &&
    forall i :: 0 <= i < |st.modules| ==>
      |st.modules[i].seen| == st.modules[i].answered + (if ShownIn(st, i).Some? then 1 else 0)
                           <= c.configs[i].questionCount
  }

  lemma {:induction false} SumOfMirrors(rs: seq<ModuleRun>, ms: seq<ModuleRun>, n: nat)
    requires n <= |rs| && n <= |ms|
    requires forall i :: 0 <= i < n ==> rs[i].answered == ms[i].answered
    ensures SumAnswered(rs, n) == SumAnswered(ms, n)
  {
    if n > 0 {
      SumOfMirrors(rs, ms, n - 1);
    }
  }

  lemma {:induction false} RunningAccounted(c: Setup, w: World, f: nat)
    requires ValidSetup(c) && RunningOk(c, w, f) && w.store.Some?
    ensures var st := w.store.value;
      && ShownAccounted(c, st) && st.answeredTotal == |w.responses| == SumAnswered(st.modules, |st.modules|)
  {
    hide Replay, RowOk;
    var st := w.store.value;
    LogRows(c, w.responses, w.row.expiresAt);
    ReplayFacts(c, w.responses);
    LiveFacts(c, w, f, st);
    forall i | 0 <= i < |c.configs|
      ensures st.modules[i].answered == Replay(c, w.responses)[i].answered
      ensures |st.modules[i].seen| == st.modules[i].answered + (if ShownIn(st, i).Some? then 1 else 0)
                                   <= c.configs[i].questionCount
    {
      assert Mirrors(c, Replay(c, w.responses)[i], st.modules[i], ShownIn(st, i));
    }
    SumOfMirrors(Replay(c, w.responses), st.modules, |c.configs|);
  }

  /**
   * In every reachable state the rows are numbered 1..n with no question twice, and n is the number of
   * answers the live state counts. While the session runs every question shown is answered or on screen,
   * within each module's length; a finish leaves at most one shown question without a row.
   */
  lemma {:induction false} Conservation(c: Setup, candidateId: CandidateId, start: int, events: seq<Event>)
    requires ValidSetup(c) && ValidEvents(c, events)
    ensures var w := Run(c, Create(c, candidateId, start), events);
      && NumberedOnce(w.responses)
      && (w.store.Some? ==>
            var st := w.store.value;
            && st.answeredTotal == |w.responses| == SumAnswered(st.modules, |st.modules|)
            && (!st.finished ==> ShownAccounted(c, st))
            && (forall i :: 0 <= i < |st.modules| ==> st.modules[i].answered <= |st.modules[i].seen|)
            && SumSeen(st.modules, |st.modules|) <= |w.responses| + 1)
  {
    hide Run, FinishedOk, RunningOk;
    var w := Run(c, Create(c, candidateId, start), events);
    RunKept(c, candidateId, start, events);
    if FinishedOk(c, w) {
      FinishedConserves(c, w);
    } else {
      var f :| RunningOk(c, w, f);
      RunningConserves(c, w, f);
    }
  }

  lemma {:induction false} FinishedConserves(c: Setup, w: World)
    requires ValidSetup(c) && FinishedOk(c, w)
    ensures NumberedOnce(w.responses)
    ensures w.store.Some? ==>
      var st := w.store.value;
      && st.finished && st.answeredTotal == |w.responses| == SumAnswered(st.modules, |st.modules|)
      && (forall i :: 0 <= i < |st.modules| ==> st.modules[i].answered <= |st.modules[i].seen|)
      && SumSeen(st.modules, |st.modules|) <= |w.responses| + 1
  {
    hide Replay, RowOk, SameScores;
    LogRows(c, w.responses, w.row.expiresAt);
    ReplayFacts(c, w.responses);
    if w.store.Some? {
      SumOfMirrors(Replay(c, w.responses), w.store.value.modules, |c.configs|);
    }
  }

  lemma {:induction false} RunningConserves(c: Setup, w: World, f: nat)
    requires ValidSetup(c) && RunningOk(c, w, f)
    ensures NumberedOnce(w.responses)
    ensures w.store.Some? ==>
      var st := w.store.value;
      && st.answeredTotal == |w.responses| == SumAnswered(st.modules, |st.modules|)
      && ShownAccounted(c, st)
      && (forall i :: 0 <= i < |st.modules| ==> st.modules[i].answered <= |st.modules[i].seen|)
      && SumSeen(st.modules, |st.modules|) <= |w.responses| + 1
  {
    hide Replay, RowOk, SameScores, Mirrors;
    LogRows(c, w.responses, w.row.expiresAt);
    ReplayFacts(c, w.responses);
    if w.store.Some? {
      RunningAccounted(c, w, f);
      SumSeenBound(c, w, f, w.store.value, w.store.value.modules, |c.configs|);
    }
  }

  // ── Finishing ────────────────────────────────────────────────────────────

  /**
   * Once finished, no sequence of calls, losses and rebuilds - whatever the selector returns - changes the
   * status, the submission time, the responses or the result rows, and every configured module has a row.
   */
  lemma {:induction false} FinishedForGood(c: Setup, w: World, events: seq<Event>)
    requires ValidSetup(c) && FinishedOk(c, w)
    ensures FinishedOk(c, Run(c, w, events)) && SameRecord(w, Run(c, w, events))
    ensures forall i :: 0 <= i < |c.configs| ==> c.configs[i].moduleId in Run(c, w, events).results
    ensures forall id :: id in Run(c, w, events).results ==> KnownModule(c, id)
  {
    if events != [] {
      FinishedForGood(c, w, events[..|events| - 1]);
      FinishedApply(c, Run(c, w, events[..|events| - 1]), events[|events| - 1]);
    }
  }

  /** A session that is reached finished is finished for good. */
  lemma {:induction false} FinishingIsAbsorbing(c: Setup, candidateId: CandidateId, start: int,
                                                events: seq<Event>, more: seq<Event>)
    requires ValidSetup(c) && ValidEvents(c, events)
    requires !Run(c, Create(c, candidateId, start), events).row.status.SessionInProgress?
    ensures var w := Run(c, Create(c, candidateId, start), events); var w1 := Run(c, w, more);
      && SameRecord(w, w1) && w.row.submittedAt.Some?
      && (forall id :: id in w1.results <==> KnownModule(c, id))
  {
    hide Run, SameScores, LogOk, FinishedLiveOk;
    RunKept(c, candidateId, start, events);
    FinishedForGood(c, Run(c, Create(c, candidateId, start), events), more);
  }

  /** Closing the session rewrites the row of an already closed module to itself, up to its start time. */
  lemma {:induction false} ClosedRowRewritten(c: Setup, now: int, w: World, f: nat, st: Live,
                                              status: SessionStatus, i: nat)
    requires ValidSetup(c) && DbOk(c, w, f) && LiveOk(c, w, f, st) && i < f && i < |c.configs|
    ensures var id := c.configs[i].moduleId; var w1 := Finalize(c, now, w, st, status);
      && id in w.results && id in w1.results
      && w1.results[id] == w.results[id].(startedAt := st.modules[i].startedAt)
  {
    hide Replay, RowOk, LogOk, Mirrors, SameScores, ResultOf, PersistAll, CutOff, Closed;
    var id := c.configs[i].moduleId;
    ConfigsMatch(c, w, f, st);
    LiveFacts(c, w, f, st);
    CutOffConfigs(c, st, now);
    AllPersisted(c, CutOffAll(st.modules, now), w.results);
    var r, m := Replay(c, w.responses)[i], st.modules[i];
    assert Mirrors(c, r, m, ShownIn(st, i)) && StatusOk(w, m, i, f);
    assert SameScores(c.scoring, w.results[id], r);
    RowRewritten(c, w.results[id], r, m, ShownIn(st, i), now);
  }

  lemma {:induction false} CutOffConfigs(c: Setup, st: Live, now: int)
    ensures forall i :: 0 <= i < |st.modules| ==> CutOffAll(st.modules, now)[i].config == st.modules[i].config
  {
  }

  /** A closed module's result is what closing the session would write again, but for the start time. */
  lemma {:induction false} RowRewritten(c: Setup, result: ModuleResult, r: ModuleRun, m: ModuleRun,
                                        shown: Option<QuestionId>, now: int)
    requires Mirrors(c, r, m, shown) && SameScores(c.scoring, result, r)
    requires m.status.Completed? && m.stopReason == result.stopReason && m.completedAt == result.completedAt
    ensures ResultOf(c.scoring, CutOff(m, now)) == result.(startedAt := m.startedAt)
  {
    MirrorsSameScores(c, r, m, shown);
  }

  /**
   * Closing a reachable running session, from its live state or from a rebuilt one, leaves every closed
   * module's scores, counts, stop reason and completion time as they were. The whole row is kept if and
   * only if the state it is closed from still has the module's start time; otherwise the stored start time,
   * which was there, becomes null.
   */
  lemma {:induction false} ClosedRowsSurvive(c: Setup, candidateId: CandidateId, start: int, events: seq<Event>,
                                             now: int, status: SessionStatus, i: nat)
    requires ValidSetup(c) && ValidEvents(c, events) && i < |c.configs|
    requires var w := Run(c, Create(c, candidateId, start), events);
      w.row.status.SessionInProgress? && Closed(w.results, c.configs[i].moduleId)
    ensures var w, id := Run(c, Create(c, candidateId, start), events), c.configs[i].moduleId;
      var (w1, st) := Loaded(c, now, w);
      var after := Finalize(c, now, w1, st, status);
      && id in after.results && i < |st.modules| && w.results[id].startedAt.Some?
      && (after.results[id] == w.results[id] <==> st.modules[i].startedAt.Some?)
      && (st.modules[i].startedAt.None? ==> after.results[id] == w.results[id].(startedAt := None))
      && (w.store.None? ==> st.modules[i].startedAt.None?)
  {
    hide Run, Finalize, Rehydrate, LogOk, SameScores, Mirrors;
    var w := Run(c, Create(c, candidateId, start), events);
    RunKept(c, candidateId, start, events);
    var f :| RunningOk(c, w, f);
    LoadedOk(c, w, f, now);
    var (w1, st) := Loaded(c, now, w);
    assert i < f;
    ConfigsMatch(c, w1, f, st);
    assert StatusOk(w1, st.modules[i], i, f);
    ClosedRowRewritten(c, now, w1, f, st, status, i);
    if w.store.None? {
      RebuiltStart(c, w, f, now, i);
    }
  }

  lemma {:induction false} RebuiltStart(c: Setup, w: World, f: nat, now: int, i: nat)
    requires ValidSetup(c) && DbOk(c, w, f) && i < f && i < |c.configs|
    ensures Rehydrate(c, now, w).modules[i].startedAt.None?
  {
    LogRows(c, w.responses, w.row.expiresAt);
    ReplayFacts(c, w.responses);
    ReplayConfig(c, w.responses, i);
  }
}
