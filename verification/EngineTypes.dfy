/**
 * Snapshots of module runs, what they are made of, and what the runs take as
 * given: questions, answers and the scoring functions.
 */
module EngineTypes {
  import opened Wrappers

  type QuestionId = nat
  type ModuleId = nat
  type OptionKey = nat
  type GroupName = nat
  type TraitKey = string
  type Weights = map<TraitKey, real>

  datatype ScoringType = Objective | Trait

  datatype ModuleStatus = Pending | InProgress | Completed

  datatype StopReason = ConfidenceReached | MaxQuestions | TimeExpired | PoolExhausted

  datatype Pattern = Situational | ForcedChoice | TradeOff | Ranking

  /** What was configured for one module when the session started. */
  datatype ModuleConfig = ModuleConfig(
    moduleId: ModuleId,
    scoringType: ScoringType,
    questionCount: nat,
    timeLimitSeconds: nat)

  /** The chance, best and worst weight a question offers on a trait. */
  datatype TraitRange = TraitRange(chance: real, best: real, worst: real)

  /** Running tally of one trait; `scale` is absent until a question with a range was answered. */
  datatype Tally = Tally(sum: real, count: nat, sumSquares: real, scale: Option<TraitRange>)

  /** An answer reduced to what the comparison of a pair looks at. */
  datatype Signature =
    | ObjectiveSignature(isCorrect: bool)
    | TraitSignature(weights: Weights)
    | UnansweredSignature

  datatype Comparison = Comparison(agreement: Option<real>, flipped: Option<bool>)

  /** The second half of a probe pair; all of it is set at once, when the twin is answered. */
  datatype ProbeTwin = ProbeTwin(
    questionId: QuestionId, sequence: nat, signature: Signature, comparison: Comparison)

  datatype ProbePair = ProbePair(
    group: GroupName,
    firstQuestionId: QuestionId,
    firstSequence: nat,
    first: Signature,
    askedAtAnswered: nat,
    second: Option<ProbeTwin>)

  /** A snapshot of one module's run: the JSON value that the session store holds. */
  datatype ModuleRun = ModuleRun(
    config: ModuleConfig,
    status: ModuleStatus,
    startedAt: Option<int>,
    deadlineAt: Option<int>,
    completedAt: Option<int>,
    stopReason: Option<StopReason>,
    answered: nat,
    correct: nat,
    seen: seq<QuestionId>,
    ability: real,
    information: real,
    recentAbilities: seq<real>,
    traitTallies: map<TraitKey, Tally>,
    patternCounts: map<Pattern, nat>,
    probes: seq<ProbePair>,
    servedGroups: seq<GroupName>)

  datatype Mcq = Mcq(options: seq<OptionKey>, correctOption: OptionKey)

  datatype Personality = Personality(pattern: Option<Pattern>)

  datatype Question = Question(
    moduleId: ModuleId,
    probeGroup: Option<GroupName>,
    mcq: Option<Mcq>,
    personality: Option<Personality>)

  datatype Answer = Chosen(option: OptionKey) | Ranked(options: seq<OptionKey>) | Unanswered

  datatype Outcome = Outcome(
    isCorrect: Option<bool>, difficultyAtServe: Option<int>, abilityAfter: Option<real>)

  datatype Error = NotFound | BadRequest | Conflict | MissingDetails | UniqueViolation | NotAdvanced

  /**
   * The estimator, evaluator and probe comparison, as functions of what they are given.
   * A `None` from one of the weight functions stands for the evaluator's rejection.
   */
  datatype Scoring = Scoring(
    updateAbility: (real, int, bool, nat) -> real,
    information: (real, int) -> real,
    choiceWeights: (QuestionId, OptionKey) -> Option<Weights>,
    rankingWeights: (QuestionId, seq<OptionKey>) -> Option<Weights>,
    traitRange: (QuestionId, bool) -> map<TraitKey, TraitRange>,
    compare: (Signature, Signature) -> Comparison,
    traitScores: map<TraitKey, Tally> -> map<TraitKey, real>,
    thresholdMet: ModuleRun -> bool)
}
