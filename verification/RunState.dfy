/**
 * The mutable forms of the live state: one object per module, updated in place by the engine, and the
 * session object that holds them. `Snapshot` is the JSON value the store would serialise.
 */
module RunState {
  import opened Wrappers
  import opened Rounding
  import opened EngineTypes
  import opened AdaptiveEngine
  import opened SessionRuntime

  class ModuleRunState {
    const config: ModuleConfig
    var status: ModuleStatus
    var startedAt: Option<int>
    var deadlineAt: Option<int>
    var completedAt: Option<int>
    var stopReason: Option<StopReason>
    var answered: nat
    var correct: nat
    var seen: seq<QuestionId>
    var ability: real
    var information: real
    var recentAbilities: seq<real>
    var traitTallies: map<TraitKey, Tally>
    var patternCounts: map<Pattern, nat>
    var probes: seq<ProbePair>
    var servedGroups: seq<GroupName>

    function Snapshot(): ModuleRun
      reads this
    {
      ModuleRun(config, status, startedAt, deadlineAt, completedAt, stopReason, answered, correct, seen,
                ability, information, recentAbilities, traitTallies, patternCounts, probes, servedGroups)
    }

    /** Parses one module of a stored blob. */
    constructor (m: ModuleRun)
      ensures Snapshot() == m
    {
      config := m.config;
      status, startedAt, deadlineAt := m.status, m.startedAt, m.deadlineAt;
      completedAt, stopReason := m.completedAt, m.stopReason;
      answered, correct, seen := m.answered, m.correct, m.seen;
      ability, information, recentAbilities := m.ability, m.information, m.recentAbilities;
      traitTallies, patternCounts := m.traitTallies, m.patternCounts;
      probes, servedGroups := m.probes, m.servedGroups;
    }

    method Track(estimate: real)
      modifies this`recentAbilities
      ensures recentAbilities == TrackAbility(old(recentAbilities), estimate)
    {
      recentAbilities := recentAbilities + [estimate];
      if |recentAbilities| > STABILITY_WINDOW {
        recentAbilities := recentAbilities[|recentAbilities| - STABILITY_WINDOW..];
      }
    }

    method MarkServedGroup(question: Question)
      modifies this`servedGroups
      ensures Snapshot() == MarkProbeServed(old(Snapshot()), question)
    {
      if question.probeGroup.Some? && question.probeGroup.value !in servedGroups {
        servedGroups := servedGroups + [question.probeGroup.value];
      }
    }

    /** Closes the open pair of the question's group if there is one, otherwise may open a new pair. */
    method Register(scoring: Scoring, id: QuestionId, question: Question, sequence: nat, signature: Signature)
      modifies this`probes
      ensures Snapshot() == RegisterProbe(scoring, old(Snapshot()), id, question, sequence, signature)
    {
      if question.probeGroup.None? {
        return;
      }
      var group := question.probeGroup.value;
      var i := 0;
      while i < |probes| && !(probes[i].group == group && probes[i].second.None?)
        invariant 0 <= i <= |probes|
        invariant OpenPairFrom(probes, group, i) == OpenPairFrom(probes, group, 0)
      {
        i := i + 1;
      }
      if i < |probes| {
        var twin := ProbeTwin(id, sequence, signature, scoring.compare(probes[i].first, signature));
        probes := probes[i := probes[i].(second := Some(twin))];
      } else if !signature.UnansweredSignature? && CanOpenPair(probes, answered, config.questionCount) {
        probes := probes + [ProbePair(group, id, sequence, signature, answered, None)];
      }
    }

    /** `RecordAnswer` in place; a rejected answer leaves the module as it was. */
    method Record(scoring: Scoring, id: QuestionId, question: Question, answer: Answer, sequence: nat,
                  difficulty: int) returns (outcome: Result<Outcome, Error>)
      modifies this
      ensures match RecordAnswer(scoring, old(Snapshot()), id, question, answer, sequence, difficulty)
        case Ok((m, o)) => Snapshot() == m && outcome == Ok(o)
        case Err(e) => Snapshot() == old(Snapshot()) && outcome == Err(e)
    {
      if config.scoringType.Objective? {
        outcome := RecordObjective(scoring, id, question, answer, sequence, difficulty);
      } else {
        outcome := RecordTrait(scoring, id, question, answer, sequence);
      }
    }

    method RecordObjective(scoring: Scoring, id: QuestionId, question: Question, answer: Answer, sequence: nat,
                           difficulty: int) returns (outcome: Result<Outcome, Error>)
      modifies this
      ensures match RecordObjectiveAnswer(scoring, old(Snapshot()), id, question, answer, sequence, difficulty)
        case Ok((m, o)) => Snapshot() == m && outcome == Ok(o)
        case Err(e) => Snapshot() == old(Snapshot()) && outcome == Err(e)
    {
      hide RegisterProbe, ScoreAnswer;
      if question.mcq.None? {
        return Err(MissingDetails);
      }
      var details := question.mcq.value;
      if answer.Ranked? || (answer.Chosen? && answer.option !in details.options) {
        return Err(BadRequest);
      }
      var isCorrect := answer.Chosen? && answer.option == details.correctOption;
      Score(scoring, isCorrect, difficulty);
      Register(scoring, id, question, sequence,
               if answer.Unanswered? then UnansweredSignature else ObjectiveSignature(isCorrect));
      outcome := Ok(Outcome(Some(isCorrect), Some(difficulty), Some(Round2(ability))));
    }

    method Score(scoring: Scoring, isCorrect: bool, difficulty: int)
      modifies this
      ensures Snapshot() == ScoreAnswer(scoring, old(Snapshot()), isCorrect, difficulty)
    {
      hide TrackAbility;
      var abilityBefore := ability;
      ability := scoring.updateAbility(abilityBefore, difficulty, isCorrect, answered);
      information := information + InformationAt(scoring, abilityBefore, difficulty);
      Track(ability);
      answered := answered + 1;
      if isCorrect {
        correct := correct + 1;
      }
    }

    method RecordTrait(scoring: Scoring, id: QuestionId, question: Question, answer: Answer, sequence: nat)
      returns (outcome: Result<Outcome, Error>)
      modifies this
      ensures match RecordTraitAnswer(scoring, old(Snapshot()), id, question, answer, sequence)
        case Ok((m, o)) => Snapshot() == m && outcome == Ok(o)
        case Err(e) => Snapshot() == old(Snapshot()) && outcome == Err(e)
    {
      hide RegisterProbe, ApplyTraitWeights, CountPattern, Evaluate;
      if question.personality.None? {
        return Err(MissingDetails);
      }
      var details := question.personality.value;
      var evaluated := Evaluate(scoring, id, answer);
      if !ShapeFits(details, answer) || evaluated.None? {
        return Err(BadRequest);
      }
      var ranges := if answer.Unanswered? then map[]
                    else scoring.traitRange(id, details.pattern == Some(Ranking));
      traitTallies := ApplyTraitWeights(traitTallies, evaluated.value, ranges);
      answered := answered + 1;
      patternCounts := CountPattern(patternCounts, details.pattern);
      Register(scoring, id, question, sequence,
               if answer.Unanswered? then UnansweredSignature else TraitSignature(evaluated.value));
      outcome := Ok(Outcome(None, None, None));
    }

    /** Closes a module that is still running when the session closes. */
    method CutShort(now: int)
      modifies this
      ensures Snapshot() == CutOff(old(Snapshot()), now)
    {
      if status.InProgress? {
        status, completedAt := Completed, Some(now);
        if stopReason.None? {
          stopReason := Some(TimeExpired);
        }
      }
    }

    /** A module with a completed result is closed; one that had begun gets its clock restarted. */
    method SettleFrom(results: map<ModuleId, ModuleResult>, now: int)
      modifies this
      ensures Snapshot() == Settle(old(Snapshot()), results, now)
    {
      if Closed(results, config.moduleId) {
        status := Completed;
        stopReason := results[config.moduleId].stopReason;
        completedAt := results[config.moduleId].completedAt;
      } else if status.InProgress? {
        startedAt := Some(now);
        deadlineAt := Some(now + config.timeLimitSeconds * 1000);
      }
    }

    /** Starts this module's clock. */
    method Begin(now: int)
      modifies this
      ensures Snapshot() == BeginModule(old(Snapshot()), now)
    {
      status := InProgress;
      startedAt := Some(now);
      deadlineAt := Some(now + config.timeLimitSeconds * 1000);
    }

    /** Folds one stored response into this module while the state is rebuilt. */
    method Replay(scoring: Scoring, r: Response, question: Question)
      modifies this
      ensures Snapshot() == ReplayAnswer(scoring, old(Snapshot()), r, question)
    {
      hide ReplayProbe, ScoreObjective, ScoreTrait, ReplayTraitAnswer, WasAnswered;
      seen := seen + [r.questionId];
      answered := answered + 1;
      status := InProgress;
      var signature := UnansweredSignature;
      if config.scoringType.Objective? {
        ReplayObjective(scoring, r);
        if WasAnswered(r) {
          signature := ObjectiveSignature(r.isCorrect == Some(true));
        }
      } else {
        var replayed := if question.personality.Some? then ReplayTraitAnswer(scoring, r) else None;
        ReplayTrait(question.personality, replayed);
        if WasAnswered(r) && replayed.Some? {
          signature := TraitSignature(replayed.value.0);
        }
      }
      RegisterReplayed(scoring, r, question, signature);
    }

    method ReplayObjective(scoring: Scoring, r: Response)
      modifies this
      ensures Snapshot() == ScoreObjective(scoring, old(Snapshot()), r)
    {
      var difficulty := if r.difficultyAtServe.Some? then r.difficultyAtServe.value else 0;
      information := information + InformationAt(scoring, ability, difficulty);
      ability := if r.abilityAfter.Some? then r.abilityAfter.value else ability;
      Track(ability);
      if r.isCorrect == Some(true) {
        correct := correct + 1;
      }
    }

    method ReplayTrait(details: Option<Personality>, replayed: Option<(Weights, map<TraitKey, TraitRange>)>)
      modifies this
      ensures Snapshot() == ScoreTrait(old(Snapshot()), details, replayed)
    {
      if replayed.Some? {
        traitTallies := ApplyTraitWeights(traitTallies, replayed.value.0, replayed.value.1);
      }
      if details.Some? {
        patternCounts := CountPattern(patternCounts, details.value.pattern);
      }
    }

    method RegisterReplayed(scoring: Scoring, r: Response, question: Question, signature: Signature)
      modifies this`servedGroups, this`probes
      ensures Snapshot() == ReplayProbe(scoring, old(Snapshot()), r, question, signature)
    {
      hide MarkProbeServed;
      MarkServedGroup(question);
      Register(scoring, r.questionId, question, r.sequenceNumber, signature);
    }
  }

  class SessionState {
    const candidateId: CandidateId
    const modules: seq<ModuleRunState>
    var startedAt: int
    var expiresAt: int
    var finished: bool
    var current: nat
    var served: Option<Served>
    var answeredTotal: nat

    /** No module object is listed twice. */
    ghost predicate Valid() {
      forall i, j :: 0 <= i < j < |modules| ==> modules[i] != modules[j]
    }

    function ModuleSnapshots(): (ms: seq<ModuleRun>)
      reads modules
      ensures |ms| == |modules|
      ensures forall i :: 0 <= i < |modules| ==> ms[i] == modules[i].Snapshot()
    {
      seq(|modules|, i requires 0 <= i < |modules| reads modules => modules[i].Snapshot())
    }

    function Snapshot(): Live
      reads this, modules
    {
      Live(candidateId, startedAt, expiresAt, finished, ModuleSnapshots(), current, served, answeredTotal)
    }

    constructor (candidateId: CandidateId, modules: seq<ModuleRunState>, startedAt: int, expiresAt: int,
                 finished: bool, current: nat, served: Option<Served>, answeredTotal: nat)
      requires forall i, j :: 0 <= i < j < |modules| ==> modules[i] != modules[j]
      ensures Valid() && this.modules == modules
      ensures Snapshot() == Live(candidateId, startedAt, expiresAt, finished,
                                 seq(|modules|, i requires 0 <= i < |modules| reads modules => modules[i].Snapshot()),
                                 current, served, answeredTotal)
    {
      this.candidateId, this.modules := candidateId, modules;
      this.startedAt, this.expiresAt, this.finished := startedAt, expiresAt, finished;
      this.current, this.served, this.answeredTotal := current, served, answeredTotal;
    }
  }
}
