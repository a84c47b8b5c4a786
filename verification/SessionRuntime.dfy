/**
 * The candidate session runtime as a state machine: the database rows of one
 * session, the live-state blob that the store may lose, and one function per
 * request. Each request is one atomic step that reads the clock once.
 */
module SessionRuntime {
  import opened Wrappers
  import opened EngineTypes
  import opened AdaptiveEngine

  const INTERMISSION_SECONDS_PER_MODULE: int := 120
  const START_GRACE_SECONDS: int := 7200
  const ANSWER_GRACE_MS: int := 2000

  type CandidateId = nat

  // ── State ────────────────────────────────────────────────────────────────

  datatype Served = Served(questionId: QuestionId, moduleId: ModuleId, servedAt: int)

  /** The live state, as the store serialises it. */
  datatype Live = Live(
    candidateId: CandidateId,
    startedAt: int,
    expiresAt: int,
    finished: bool,
    modules: seq<ModuleRun>,
    current: nat,
    served: Option<Served>,
    answeredTotal: nat)

  datatype SessionStatus = SessionInProgress | SessionCompleted | SessionAutoSubmitted

  datatype SessionRow = SessionRow(
    candidateId: CandidateId,
    status: SessionStatus,
    startedAt: int,
    expiresAt: int,
    submittedAt: Option<int>)

  datatype Response = Response(
    moduleId: ModuleId,
    questionId: QuestionId,
    selectedOption: Option<OptionKey>,
    selectedOptions: Option<seq<OptionKey>>,
    isCorrect: Option<bool>,
    abilityAfter: Option<real>,
    difficultyAtServe: Option<int>,
    sequenceNumber: nat,
    timeTakenMs: int,
    answeredAt: int)

  datatype ModuleResult = ModuleResult(
    abilityScore: Option<real>,
    traitScores: Option<map<TraitKey, real>>,
    probeResults: Option<seq<ProbePair>>,
    questionsAnswered: nat,
    questionsCorrect: nat,
    stopReason: Option<StopReason>,
    startedAt: Option<int>,
    completedAt: Option<int>)

  /** One session: its row, its append-only responses, its results by module, and the blob if the store has it. */
  datatype World = World(
    row: SessionRow,
    responses: seq<Response>,
    results: map<ModuleId, ModuleResult>,
    store: Option<Live>)

  /** What does not change while the session runs. */
  datatype Setup = Setup(scoring: Scoring, configs: seq<ModuleConfig>, bank: map<QuestionId, Question>)

  /** What one request observes: the clock, the selector's picks and the current item difficulties. */
  datatype Moment = Moment(now: int, select: ModuleRun -> Option<QuestionId>, difficulty: QuestionId -> int)

  datatype Step = Finished | ModuleIntro(index: nat) | OnScreen(questionId: QuestionId, sequenceNumber: nat)

  type Reply = Result<Step, Error>

  datatype AnswerDto = AnswerDto(
    questionId: QuestionId,
    selectedOption: Option<OptionKey>,
    selectedOptions: Option<seq<OptionKey>>)

  datatype Request =
    | Resume
    | CurrentStep(candidateId: CandidateId)
    | StartModule(candidateId: CandidateId)
    | SubmitAnswer(candidateId: CandidateId, dto: AnswerDto)
    | AutoSubmit
    | LoseState

  datatype Event = Event(request: Request, moment: Moment)

  // ── Closing modules and sessions ─────────────────────────────────────────

  /** The row that `persistModuleResult` upserts for a module. */
  function ResultOf(scoring: Scoring, m: ModuleRun): ModuleResult {
    var attempted := m.answered > 0;
    ModuleResult(
      if attempted then FinalAbility(m) else None,
      if attempted then FinalTraitScores(scoring, m) else None,
      if attempted then ProbeResults(m) else None,
      m.answered, m.correct, m.stopReason, m.startedAt, m.completedAt)
  }

  function PersistAll(scoring: Scoring, ms: seq<ModuleRun>, results: map<ModuleId, ModuleResult>)
    : map<ModuleId, ModuleResult>
  {
    if ms == [] then results
    else
      var last := ms[|ms| - 1];
      PersistAll(scoring, ms[..|ms| - 1], results)[last.config.moduleId := ResultOf(scoring, last)]
  }

  /** A module that is still running when the session closes is cut off there and then. */
  function CutOff(m: ModuleRun, now: int): ModuleRun {
    if m.status.InProgress? then
      m.(status := Completed, completedAt := Some(now),
         stopReason := if m.stopReason.Some? then m.stopReason else Some(TimeExpired))
    else m
  }

  function CutOffAll(ms: seq<ModuleRun>, now: int): (r: seq<ModuleRun>)
    ensures |r| == |ms|
    ensures forall i :: 0 <= i < |ms| ==> r[i] == CutOff(ms[i], now)
  {
    seq(|ms|, i requires 0 <= i < |ms| => CutOff(ms[i], now))
  }

  function Finalize(c: Setup, now: int, w: World, st: Live, status: SessionStatus): World {
    if st.finished then w
    else
      var modules := CutOffAll(st.modules, now);
      World(w.row.(status := status, submittedAt := Some(now)),
            w.responses,
            PersistAll(c.scoring, modules, w.results),
            Some(st.(modules := modules, finished := true, served := None)))
  }

  // ── Answers ──────────────────────────────────────────────────────────────

  predicate Answered(responses: seq<Response>, id: QuestionId) {
    exists r :: r in responses && r.questionId == id
  }

  function ResponseFor(moduleId: ModuleId, id: QuestionId, answer: Answer, outcome: Outcome, sequence: nat,
                       servedAt: int, now: int): Response
  {
    Response(
      moduleId, id,
      if answer.Chosen? then Some(answer.option) else None,
      if answer.Ranked? then Some(answer.options) else None,
      outcome.isCorrect, outcome.abilityAfter, outcome.difficultyAtServe,
      sequence, if now > servedAt then now - servedAt else 0, now)
  }

  /** Scores the answer to the question on screen in module `i` and appends its row. */
  function ApplyAnswer(c: Setup, env: Moment, w: World, st: Live, i: nat, served: Served, answer: Answer)
    : (r: Result<(World, Live), Error>)
    requires i < |st.modules|
    ensures r.Ok? ==>
      |r.value.1.modules| == |st.modules| && r.value.1.current == st.current && r.value.1.finished == st.finished
    ensures r.Err? ==> r.error != NotAdvanced
  {
    var id := served.questionId;
    if id !in c.bank then Err(NotFound)
    else
      var sequence := st.answeredTotal + 1;
      match RecordAnswer(c.scoring, st.modules[i], id, c.bank[id], answer, sequence, env.difficulty(id))
      case Err(e) => Err(e)
      case Ok((m, outcome)) =>
        if Answered(w.responses, id) then Err(UniqueViolation)
        else
          var row := ResponseFor(st.modules[i].config.moduleId, id, answer, outcome, sequence, served.servedAt, env.now);
          Ok((w.(responses := w.responses + [row]),
              st.(modules := st.modules[i := m], answeredTotal := sequence, served := None)))
  }

  /** A question still on screen is scored as unanswered, then the module is closed and its result stored. */
  function CompleteModule(c: Setup, env: Moment, w: World, st: Live, i: nat, reason: StopReason)
    : (r: Result<(World, Live), Error>)
    requires i < |st.modules|
    ensures r.Ok? ==>
      |r.value.1.modules| == |st.modules| && r.value.1.current == st.current && r.value.1.finished == st.finished
    ensures r.Err? ==> r.error != NotAdvanced
  {
    var onScreen := st.served.Some? && st.served.value.moduleId == st.modules[i].config.moduleId;
    match if onScreen then ApplyAnswer(c, env, w, st, i, st.served.value, Unanswered) else Ok((w, st))
    case Err(e) => Err(e)
    case Ok((w1, st1)) => Ok(CloseWith(c, env.now, w1, st1, i, reason))
  }

  function CloseWith(c: Setup, now: int, w: World, st: Live, i: nat, reason: StopReason): (World, Live)
    requires i < |st.modules|
  {
    var m := st.modules[i].(status := Completed, completedAt := Some(now), stopReason := Some(reason));
    (w.(results := w.results[m.config.moduleId := ResultOf(c.scoring, m)]),
     st.(modules := st.modules[i := m]))
  }

  // ── Driving the session forward ──────────────────────────────────────────

  function Serve(c: Setup, env: Moment, st: Live, id: QuestionId): Live
    requires st.current < |st.modules| && id in c.bank
  {
    var m := st.modules[st.current];
    var shown := MarkProbeServed(m.(seen := m.seen + [id]), c.bank[id]);
    st.(modules := st.modules[st.current := shown],
        served := Some(Served(id, m.config.moduleId, env.now)))
  }

  /** Moves on until there is something for the candidate: a question, an intro, or the end. */
  function Advance(c: Setup, env: Moment, w: World, st: Live): (World, Reply)
    decreases |st.modules| - st.current
  {
    if st.finished then (w, Ok(Finished))
    else if env.now >= st.expiresAt then (Finalize(c, env.now, w, st, SessionAutoSubmitted), Ok(Finished))
    else if st.current >= |st.modules| then (Finalize(c, env.now, w, st, SessionCompleted), Ok(Finished))
    else
      var m := st.modules[st.current];
      match m.status
      case Completed =>
        var next := st.(current := st.current + 1);
        Advance(c, env, w.(store := Some(next)), next)
      case Pending => (w, Ok(ModuleIntro(st.current)))
      case InProgress =>
        if st.served.Some? && st.served.value.moduleId == m.config.moduleId && !TimedOut(m, env.now) then
          if st.served.value.questionId !in c.bank then (w, Err(NotFound))
          else (w, Ok(OnScreen(st.served.value.questionId, st.answeredTotal + 1)))
        else
          match NextStepFor(c.scoring, m, env.now, env.select)
          case ServeQuestion(id) =>
            if id !in c.bank then (w, Err(NotFound))
            else (w.(store := Some(Serve(c, env, st, id))), Ok(OnScreen(id, st.answeredTotal + 1)))
          case ModuleComplete(reason) =>
            match CompleteModule(c, env, w, st, st.current, reason)
            case Err(e) => (w, Err(e))
            case Ok((w1, st1)) =>
              var next := st1.(current := st1.current + 1);
              Advance(c, env, w1.(store := Some(next)), next)
  }

  // ── One pass of the advance loop, case by case ───────────────────────────

  lemma {:induction false} AdvanceFinished(c: Setup, env: Moment, w: World, st: Live)
    requires st.finished
    ensures Advance(c, env, w, st) == (w, Ok(Finished))
  {
  }

  lemma {:induction false} AdvanceEnds(c: Setup, env: Moment, w: World, st: Live)
    requires !st.finished && (env.now >= st.expiresAt || st.current >= |st.modules|)
    ensures Advance(c, env, w, st)
            == (Finalize(c, env.now, w, st,
                         if env.now >= st.expiresAt then SessionAutoSubmitted else SessionCompleted),
                Ok(Finished))
  {
    hide Finalize;
  }

  lemma {:induction false} AdvanceRests(c: Setup, env: Moment, w: World, st: Live)
    requires !st.finished && env.now < st.expiresAt && st.current < |st.modules|
    ensures var m := st.modules[st.current];
      && (m.status.Completed? ==>
            var next := st.(current := st.current + 1);
            Advance(c, env, w, st) == Advance(c, env, w.(store := Some(next)), next))
      && (m.status.Pending? ==> Advance(c, env, w, st) == (w, Ok(ModuleIntro(st.current))))
      && (m.status.InProgress? && st.served.Some? && st.served.value.moduleId == m.config.moduleId
          && !TimedOut(m, env.now) ==>
            Advance(c, env, w, st)
            == (w, if st.served.value.questionId in c.bank
                   then Ok(OnScreen(st.served.value.questionId, st.answeredTotal + 1)) else Err(NotFound)))
  {
    hide Finalize, CompleteModule, Serve, NextStepFor;
  }

  lemma {:induction false} AdvanceMoves(c: Setup, env: Moment, w: World, st: Live)
    requires !st.finished && env.now < st.expiresAt && st.current < |st.modules|
    requires st.modules[st.current].status.InProgress?
    requires st.served.Some? && st.served.value.moduleId == st.modules[st.current].config.moduleId ==>
      TimedOut(st.modules[st.current], env.now)
    ensures var step := NextStepFor(c.scoring, st.modules[st.current], env.now, env.select);
      && (step.ServeQuestion? ==>
            Advance(c, env, w, st)
            == if step.id in c.bank
               then (w.(store := Some(Serve(c, env, st, step.id))), Ok(OnScreen(step.id, st.answeredTotal + 1)))
               else (w, Err(NotFound)))
      && (step.ModuleComplete? ==>
            var closed := CompleteModule(c, env, w, st, st.current, step.reason);
            && (closed.Err? ==> Advance(c, env, w, st) == (w, Err(closed.error)))
            && (closed.Ok? ==>
                  var next := closed.value.1.(current := closed.value.1.current + 1);
                  Advance(c, env, w, st) == Advance(c, env, closed.value.0.(store := Some(next)), next)))
  {
    hide Finalize, CompleteModule, Serve, NextStepFor;
  }

  // ── Rebuilding the live state ────────────────────────────────────────────

  /** Index of the module with an id from position `k` on, or the number of modules when there is none. */
  function FindModuleFrom(ms: seq<ModuleRun>, id: ModuleId, k: nat): (i: nat)
    requires k <= |ms|
    ensures k <= i <= |ms|
    ensures i < |ms| ==> ms[i].config.moduleId == id
    ensures forall j :: k <= j < i ==> ms[j].config.moduleId != id
    decreases |ms| - k
  {
    if k == |ms| || ms[k].config.moduleId == id then k else FindModuleFrom(ms, id, k + 1)
  }

  /** What a stored trait answer expressed and the scale it is scored against; None when nothing was chosen. */
  function ReplayTraitAnswer(scoring: Scoring, r: Response): Option<(Weights, map<TraitKey, TraitRange>)> {
    var isRanking := r.selectedOptions.Some? && |r.selectedOptions.value| > 0;
    var weights := if isRanking then scoring.rankingWeights(r.questionId, r.selectedOptions.value)
                   else if r.selectedOption.Some? then scoring.choiceWeights(r.questionId, r.selectedOption.value)
                   else None;
    if weights.None? then None else Some((weights.value, scoring.traitRange(r.questionId, isRanking)))
  }

  function WasAnswered(r: Response): bool {
    r.selectedOption.Some? || (r.selectedOptions.Some? && |r.selectedOptions.value| > 0)
  }

  function CountReplayed(m: ModuleRun, r: Response): ModuleRun {
    m.(seen := m.seen + [r.questionId], answered := m.answered + 1, status := InProgress)
  }

  function ScoreObjective(scoring: Scoring, m: ModuleRun, r: Response): ModuleRun {
    var difficulty := if r.difficultyAtServe.Some? then r.difficultyAtServe.value else 0;
    var ability := if r.abilityAfter.Some? then r.abilityAfter.value else m.ability;
    m.(information := m.information + InformationAt(scoring, m.ability, difficulty),
       ability := ability,
       recentAbilities := TrackAbility(m.recentAbilities, ability),
       correct := if r.isCorrect == Some(true) then m.correct + 1 else m.correct)
  }

  function ScoreTrait(m: ModuleRun, details: Option<Personality>,
                      replayed: Option<(Weights, map<TraitKey, TraitRange>)>): ModuleRun
  {
    m.(traitTallies := if replayed.Some?
                       then ApplyTraitWeights(m.traitTallies, replayed.value.0, replayed.value.1)
                       else m.traitTallies,
       patternCounts := if details.Some? then CountPattern(m.patternCounts, details.value.pattern)
                        else m.patternCounts)
  }

  /** Folds one stored response into the module it belongs to. */
  function ReplayAnswer(scoring: Scoring, m: ModuleRun, r: Response, question: Question): ModuleRun {
    var counted := CountReplayed(m, r);
    if m.config.scoringType.Objective? then
      ReplayProbe(scoring, ScoreObjective(scoring, counted, r), r, question,
                  if WasAnswered(r) then ObjectiveSignature(r.isCorrect == Some(true)) else UnansweredSignature)
    else
      var details := question.personality;
      var replayed := if details.Some? then ReplayTraitAnswer(scoring, r) else None;
      ReplayProbe(scoring, ScoreTrait(counted, details, replayed), r, question,
                  if WasAnswered(r) && replayed.Some? then TraitSignature(replayed.value.0) else UnansweredSignature)
  }

  function ReplayProbe(scoring: Scoring, m: ModuleRun, r: Response, question: Question, signature: Signature)
    : ModuleRun
  {
    RegisterProbe(scoring, MarkProbeServed(m, question), r.questionId, question, r.sequenceNumber, signature)
  }

  function FreshModules(configs: seq<ModuleConfig>): (ms: seq<ModuleRun>)
    ensures |ms| == |configs|
    ensures forall i :: 0 <= i < |ms| ==> ms[i] == CreateModuleState(configs[i])
  {
    seq(|configs|, i requires 0 <= i < |configs| => CreateModuleState(configs[i]))
  }

  function ReplayInto(c: Setup, ms: seq<ModuleRun>, r: Response): (out: seq<ModuleRun>)
    ensures |out| == |ms|
  {
    var i := FindModuleFrom(ms, r.moduleId, 0);
    if i == |ms| || r.questionId !in c.bank then ms
    else ms[i := ReplayAnswer(c.scoring, ms[i], r, c.bank[r.questionId])]
  }

  /** The modules as the response log alone describes them. */
  function Replay(c: Setup, log: seq<Response>): (ms: seq<ModuleRun>)
    ensures |ms| == |c.configs|
  {
    if log == [] then FreshModules(c.configs)
    else ReplayInto(c, Replay(c, log[..|log| - 1]), log[|log| - 1])
  }

  predicate Closed(results: map<ModuleId, ModuleResult>, id: ModuleId) {
    id in results && results[id].completedAt.Some?
  }

  /** A module with a completed result is closed; one that had begun gets its clock restarted. */
  function Settle(m: ModuleRun, results: map<ModuleId, ModuleResult>, now: int): ModuleRun {
    var id := m.config.moduleId;
    if Closed(results, id) then
      m.(status := Completed, stopReason := results[id].stopReason, completedAt := results[id].completedAt)
    else if m.status.InProgress? then
      m.(startedAt := Some(now), deadlineAt := Some(now + m.config.timeLimitSeconds * 1000))
    else m
  }

  function SettleAll(ms: seq<ModuleRun>, results: map<ModuleId, ModuleResult>, now: int): (r: seq<ModuleRun>)
    ensures |r| == |ms|
    ensures forall i :: 0 <= i < |ms| ==> r[i] == Settle(ms[i], results, now)
  {
    seq(|ms|, i requires 0 <= i < |ms| => Settle(ms[i], results, now))
  }

  /** Index of the first module from position `k` on that is not completed, or the number of modules. */
  function FirstUnfinishedFrom(ms: seq<ModuleRun>, k: nat): (i: nat)
    requires k <= |ms|
    ensures k <= i <= |ms|
    ensures i < |ms| ==> !ms[i].status.Completed?
    ensures forall j :: k <= j < i ==> ms[j].status.Completed?
    decreases |ms| - k
  {
    if k == |ms| || !ms[k].status.Completed? then k else FirstUnfinishedFrom(ms, k + 1)
  }

  /** The live state rebuilt from the database after the store lost it. */
  function Rehydrate(c: Setup, now: int, w: World): Live {
    var modules := SettleAll(Replay(c, w.responses), w.results, now);
    Live(w.row.candidateId, w.row.startedAt, w.row.expiresAt, !w.row.status.SessionInProgress?,
         modules, FirstUnfinishedFrom(modules, 0), None, |w.responses|)
  }

  /** The world and live state that a request works on; a rebuilt state is saved at once. */
  function Loaded(c: Setup, now: int, w: World): (World, Live) {
    if w.store.Some? then (w, w.store.value)
    else var st := Rehydrate(c, now, w); (w.(store := Some(st)), st)
  }

  // ── Requests ─────────────────────────────────────────────────────────────

  function BudgetSeconds(configs: seq<ModuleConfig>): int {
    if configs == [] then 0
    else BudgetSeconds(configs[..|configs| - 1])
         + configs[|configs| - 1].timeLimitSeconds + INTERMISSION_SECONDS_PER_MODULE
  }

  function ConfigsOf(ms: seq<ModuleRun>): (r: seq<ModuleConfig>)
    ensures |r| == |ms|
    ensures forall i :: 0 <= i < |ms| ==> r[i] == ms[i].config
  {
    seq(|ms|, i requires 0 <= i < |ms| => ms[i].config)
  }

  /** `createSession`: the row, an untouched state at the first module, and a placeholder deadline. */
  function Create(c: Setup, candidateId: CandidateId, now: int): World {
    var expiresAt := now + (BudgetSeconds(c.configs) + START_GRACE_SECONDS) * 1000;
    World(SessionRow(candidateId, SessionInProgress, now, expiresAt, None), [], map[],
          Some(Live(candidateId, now, expiresAt, false, FreshModules(c.configs), 0, None, 0)))
  }

  predicate AllPending(ms: seq<ModuleRun>) {
    forall m :: m in ms ==> m.status.Pending?
  }

  function BeginModule(m: ModuleRun, now: int): ModuleRun {
    m.(status := InProgress, startedAt := Some(now),
       deadlineAt := Some(now + m.config.timeLimitSeconds * 1000))
  }

  /** Starts the current module's clock, and the session's own clock with the first module. */
  function StartCurrent(c: Setup, now: int, w: World, st: Live): (World, Live)
    requires st.current < |st.modules|
  {
    var started := st.(modules := st.modules[st.current := BeginModule(st.modules[st.current], now)]);
    if AllPending(st.modules) then
      var expiresAt := now + BudgetSeconds(ConfigsOf(st.modules)) * 1000;
      var rebased := started.(startedAt := now, expiresAt := expiresAt);
      (w.(row := w.row.(startedAt := now, expiresAt := expiresAt), store := Some(rebased)), rebased)
    else (w.(store := Some(started)), started)
  }

  function StartCurrentModule(c: Setup, env: Moment, w: World): (World, Reply) {
    var (w1, st) := Loaded(c, env.now, w);
    if st.current < |st.modules| && st.modules[st.current].status.Pending? then
      var (w2, st2) := StartCurrent(c, env.now, w1, st);
      Advance(c, env, w2, st2)
    else Advance(c, env, w1, st)
  }

  /** The payload checks: one of the two shapes, and an ordering of at least two options. */
  function ToAnswer(dto: AnswerDto): (r: Result<Answer, Error>)
    ensures r.Ok? ==> !r.value.Unanswered?
    ensures r.Ok? && r.value.Ranked? ==> |r.value.options| >= 2
  {
    if dto.selectedOption.Some? && dto.selectedOptions.Some? then Err(BadRequest)
    else if dto.selectedOptions.Some? then
      if |dto.selectedOptions.value| < 2 then Err(BadRequest) else Ok(Ranked(dto.selectedOptions.value))
    else if dto.selectedOption.Some? then Ok(Chosen(dto.selectedOption.value))
    else Err(BadRequest)
  }

  function Submit(c: Setup, env: Moment, w: World, questionId: QuestionId, answer: Answer): (World, Reply) {
    var (w1, st) := Loaded(c, env.now, w);
    if st.finished then Advance(c, env, w1, st)
    else if env.now >= st.expiresAt then
      (Finalize(c, env.now, w1, st, SessionAutoSubmitted), Ok(Finished))
    else if st.served.None? || st.served.value.questionId != questionId then (w1, Err(Conflict))
    else if st.current >= |st.modules|
            || st.modules[st.current].config.moduleId != st.served.value.moduleId then (w1, Err(Conflict))
    else
      var m := st.modules[st.current];
      if m.deadlineAt.Some? && env.now > m.deadlineAt.value + ANSWER_GRACE_MS then Advance(c, env, w1, st)
      else match ApplyAnswer(c, env, w1, st, st.current, st.served.value, answer)
        case Err(e) => (w1, Err(e))
        case Ok((w2, st2)) => Advance(c, env, w2.(store := Some(st2)), st2)
  }

  /** Whether a call for a candidate reaches the session: the owner is read from the blob, or from the row. */
  predicate Owns(w: World, candidateId: CandidateId) {
    candidateId == (if w.store.Some? then w.store.value.candidateId else w.row.candidateId)
  }

  function Apply(c: Setup, w: World, event: Event): (World, Reply) {
    var env := event.moment;
    match event.request
    case Resume =>
      if !w.row.status.SessionInProgress? then (w, Ok(Finished))
      else var (w1, st) := Loaded(c, env.now, w); Advance(c, env, w1, st)
    case CurrentStep(candidateId) =>
      if !Owns(w, candidateId) then (w, Err(NotFound))
      else var (w1, st) := Loaded(c, env.now, w); Advance(c, env, w1, st)
    case StartModule(candidateId) =>
      if !Owns(w, candidateId) then (w, Err(NotFound)) else StartCurrentModule(c, env, w)
    case SubmitAnswer(candidateId, dto) =>
      var answer := ToAnswer(dto);
      if answer.Err? then (w, Err(BadRequest))
      else if !Owns(w, candidateId) then (w, Err(NotFound))
      else Submit(c, env, w, dto.questionId, answer.value)
    case AutoSubmit =>
      if !w.row.status.SessionInProgress? then (w, Ok(Finished))
      else
        var (w1, st) := Loaded(c, env.now, w);
        (Finalize(c, env.now, w1, st, SessionAutoSubmitted), Ok(Finished))
    case LoseState => (w.(store := None), Ok(Finished))
  }

  // ── Runs ─────────────────────────────────────────────────────────────────

  /** Module ids are unique within an assessment, and an assessment has at least one module. */
  predicate ValidSetup(c: Setup) {
    |c.configs| > 0 &&
    forall i, j :: 0 <= i < j < |c.configs| ==> c.configs[i].moduleId != c.configs[j].moduleId
  }

  /** A question that can be scored in a module: it belongs there and carries the details the module needs. */
  predicate Fits(c: Setup, config: ModuleConfig, id: QuestionId) {
    id in c.bank && c.bank[id].moduleId == config.moduleId &&
    (if config.scoringType.Objective? then c.bank[id].mcq.Some? else c.bank[id].personality.Some?)
  }

  /** The selector only returns questions that fit the module and were not shown in it yet. */
  ghost predicate SelectorOk(c: Setup, env: Moment) {
    forall m: ModuleRun :: env.select(m).Some? ==>
      Fits(c, m.config, env.select(m).value) && env.select(m).value !in m.seen
  }

  function Run(c: Setup, w: World, events: seq<Event>): World {
    if events == [] then w
    else Apply(c, Run(c, w, events[..|events| - 1]), events[|events| - 1]).0
  }

  ghost predicate ValidEvents(c: Setup, events: seq<Event>) {
    forall e :: e in events ==> SelectorOk(c, e.moment)
  }
}
