/**
 * What the adaptive engine does to one module's state, as functions on snapshots.
 * `RunState.ModuleRunState` is the mutable form; its methods are proved against these.
 */
module AdaptiveEngine {
  import opened Wrappers
  import opened Rounding
  import opened EngineTypes

  const STARTING_ABILITY: real := 1000.0
  const STABILITY_WINDOW: nat := 4
  const PROBE_GAP_QUESTIONS: nat := 8
  const PROBE_MAX_PAIRS: nat := 2

  /** A module nobody has begun: no clock, nothing shown, the starting estimate. */
  function CreateModuleState(config: ModuleConfig): ModuleRun {
    ModuleRun(config, Pending, None, None, None, None, 0, 0, [], STARTING_ABILITY, 0.0, [],
              map[], map[], [], [])
  }

  // ── Estimator bookkeeping ────────────────────────────────────────────────

  /** The information a question carries at an estimate. */
  function InformationAt(scoring: Scoring, ability: real, difficulty: int): real {
    scoring.information(ability, difficulty)
  }

  /** The last `STABILITY_WINDOW` estimates, newest last. */
  function TrackAbility(recent: seq<real>, ability: real): seq<real> {
    var all := recent + [ability];
    if |all| > STABILITY_WINDOW then all[|all| - STABILITY_WINDOW..] else all
  }

  function TallyOf(tallies: map<TraitKey, Tally>, key: TraitKey): Tally {
    if key in tallies then tallies[key] else Tally(0.0, 0, 0.0, None)
  }

  function AddWeight(tally: Tally, weight: real): Tally {
    tally.(sum := tally.sum + weight, count := tally.count + 1,
           sumSquares := tally.sumSquares + weight * weight)
  }

  function AddRange(tally: Tally, range: TraitRange): Tally {
    var was := if tally.scale.Some? then tally.scale.value else TraitRange(0.0, 0.0, 0.0);
    tally.(scale := Some(TraitRange(was.chance + range.chance, was.best + range.best, was.worst + range.worst)))
  }

  /** Folds what an answer expressed, and what its question made possible, into the tallies. */
  function ApplyTraitWeights(tallies: map<TraitKey, Tally>, weights: Weights,
                             ranges: map<TraitKey, TraitRange>): map<TraitKey, Tally>
  {
    map key | key in tallies.Keys + weights.Keys + ranges.Keys ::
      var weighed := if key in weights then AddWeight(TallyOf(tallies, key), weights[key])
                     else TallyOf(tallies, key);
      if key in ranges then AddRange(weighed, ranges[key]) else weighed
  }

  function CountPattern(counts: map<Pattern, nat>, pattern: Option<Pattern>): map<Pattern, nat> {
    match pattern
    case None => counts
    case Some(p) => counts[p := (if p in counts then counts[p] else 0) + 1]
  }

  // ── Repeat probes ────────────────────────────────────────────────────────

  function MarkServed(groups: seq<GroupName>, group: Option<GroupName>): seq<GroupName> {
    if group.None? || group.value in groups then groups else groups + [group.value]
  }

  function MarkProbeServed(m: ModuleRun, question: Question): ModuleRun {
    m.(servedGroups := MarkServed(m.servedGroups, question.probeGroup))
  }

  predicate CanOpenPair(probes: seq<ProbePair>, answered: nat, questionCount: nat) {
    |probes| < PROBE_MAX_PAIRS && answered + PROBE_GAP_QUESTIONS < questionCount
  }

  /** Index of the open pair of a group from position `k` on, or the number of pairs when there is none. */
  function OpenPairFrom(probes: seq<ProbePair>, group: GroupName, k: nat): (i: nat)
    requires k <= |probes|
    ensures k <= i <= |probes|
    ensures i < |probes| ==> probes[i].group == group && probes[i].second.None?
    ensures forall j :: k <= j < i ==> !(probes[j].group == group && probes[j].second.None?)
    decreases |probes| - k
  {
    if k == |probes| || (probes[k].group == group && probes[k].second.None?) then k
    else OpenPairFrom(probes, group, k + 1)
  }

  /** Closes the open pair of the question's group, or opens a new one where there is room. */
  function PairsAfter(scoring: Scoring, probes: seq<ProbePair>, answered: nat, questionCount: nat,
                      group: Option<GroupName>, id: QuestionId, sequence: nat, signature: Signature)
    : seq<ProbePair>
  {
    if group.None? then probes
    else
      var i := OpenPairFrom(probes, group.value, 0);
      if i < |probes| then
        var twin := ProbeTwin(id, sequence, signature, scoring.compare(probes[i].first, signature));
        probes[i := probes[i].(second := Some(twin))]
      else if signature.UnansweredSignature? || !CanOpenPair(probes, answered, questionCount) then probes
      else probes + [ProbePair(group.value, id, sequence, signature, answered, None)]
  }

  function RegisterProbe(scoring: Scoring, m: ModuleRun, id: QuestionId, question: Question,
                         sequence: nat, signature: Signature): ModuleRun
  {
    m.(probes := PairsAfter(scoring, m.probes, m.answered, m.config.questionCount, question.probeGroup,
                            id, sequence, signature))
  }

  // ── Answers ──────────────────────────────────────────────────────────────

  function RecordAnswer(scoring: Scoring, m: ModuleRun, id: QuestionId, question: Question, answer: Answer,
                        sequence: nat, difficulty: int): (r: Result<(ModuleRun, Outcome), Error>)
    ensures r.Err? ==> r.error != NotAdvanced
  {
    if m.config.scoringType.Objective? then RecordObjectiveAnswer(scoring, m, id, question, answer, sequence, difficulty)
    else RecordTraitAnswer(scoring, m, id, question, answer, sequence)
  }

  /** Counts one right or wrong answer. Its information is that of the old estimate, not of the one it leads to. */
  function ScoreAnswer(scoring: Scoring, m: ModuleRun, isCorrect: bool, difficulty: int): ModuleRun {
    var ability := scoring.updateAbility(m.ability, difficulty, isCorrect, m.answered);
    m.(ability := ability,
       information := m.information + InformationAt(scoring, m.ability, difficulty),
       recentAbilities := TrackAbility(m.recentAbilities, ability),
       answered := m.answered + 1,
       correct := if isCorrect then m.correct + 1 else m.correct)
  }

  function RecordObjectiveAnswer(scoring: Scoring, m: ModuleRun, id: QuestionId, question: Question,
                                 answer: Answer, sequence: nat, difficulty: int)
    : (r: Result<(ModuleRun, Outcome), Error>)
    ensures r.Err? ==> r.error != NotAdvanced
  {
    if question.mcq.None? then Err(MissingDetails)
    else if answer.Ranked? then Err(BadRequest)
    else if answer.Chosen? && answer.option !in question.mcq.value.options then Err(BadRequest)
    else
      var isCorrect := answer.Chosen? && answer.option == question.mcq.value.correctOption;
      var scored := ScoreAnswer(scoring, m, isCorrect, difficulty);
      var signature := if answer.Unanswered? then UnansweredSignature else ObjectiveSignature(isCorrect);
      Ok((RegisterProbe(scoring, scored, id, question, sequence, signature),
          Outcome(Some(isCorrect), Some(difficulty), Some(Round2(scored.ability)))))
  }

  /** Orderings are for `Ranking` details only; `Unanswered` suits all details. */
  predicate ShapeFits(details: Personality, answer: Answer) {
    answer.Unanswered? || (details.pattern == Some(Ranking) <==> answer.Ranked?)
  }

  /** What an answer expressed; nothing for an unanswered question, None where the evaluator rejects it. */
  function Evaluate(scoring: Scoring, id: QuestionId, answer: Answer): Option<Weights> {
    match answer
    case Unanswered => Some(map[])
    case Ranked(options) => scoring.rankingWeights(id, options)
    case Chosen(option) => scoring.choiceWeights(id, option)
  }

  function RecordTraitAnswer(scoring: Scoring, m: ModuleRun, id: QuestionId, question: Question,
                             answer: Answer, sequence: nat): (r: Result<(ModuleRun, Outcome), Error>)
    ensures r.Err? ==> r.error != NotAdvanced
  {
    if question.personality.None? then Err(MissingDetails)
    else
      var details := question.personality.value;
      if !ShapeFits(details, answer) || Evaluate(scoring, id, answer).None? then Err(BadRequest)
      else
        var weights := Evaluate(scoring, id, answer).value;
        var ranges := if answer.Unanswered? then map[]
                      else scoring.traitRange(id, details.pattern == Some(Ranking));
        var scored := m.(
          traitTallies := ApplyTraitWeights(m.traitTallies, weights, ranges),
          answered := m.answered + 1,
          patternCounts := CountPattern(m.patternCounts, details.pattern));
        var signature := if answer.Unanswered? then UnansweredSignature else TraitSignature(weights);
        Ok((RegisterProbe(scoring, scored, id, question, sequence, signature), Outcome(None, None, None)))
  }

  // ── Serving and stopping ─────────────────────────────────────────────────

  datatype NextStep = ServeQuestion(id: QuestionId) | ModuleComplete(reason: StopReason)

  predicate TimedOut(m: ModuleRun, now: int) {
    m.deadlineAt.Some? && now >= m.deadlineAt.value
  }

  /** The next question, or why the module is over. `select` is the selector's pick for a state. */
  function NextStepFor(scoring: Scoring, m: ModuleRun, now: int,
                       select: ModuleRun -> Option<QuestionId>): NextStep
  {
    if TimedOut(m, now) then ModuleComplete(TimeExpired)
    else if m.answered >= m.config.questionCount then ModuleComplete(MaxQuestions)
    else match select(m)
      case Some(id) => ServeQuestion(id)
      case None => ModuleComplete(if scoring.thresholdMet(m) then ConfidenceReached else PoolExhausted)
  }

  function FinalAbility(m: ModuleRun): Option<real> {
    if m.config.scoringType.Objective? then Some(Round2(m.ability)) else None
  }

  function FinalTraitScores(scoring: Scoring, m: ModuleRun): Option<map<TraitKey, real>> {
    if m.config.scoringType.Trait? then Some(scoring.traitScores(m.traitTallies)) else None
  }

  function ProbeResults(m: ModuleRun): Option<seq<ProbePair>> {
    if m.probes == [] then None else Some(m.probes)
  }
}
