/**
 * What the stored rows of a session mean: verdicts against the bank, and every figure of a module - counts,
 * estimates, trait tallies, patterns, probe pairs and the stored result - as a summary of its rows.
 */
module SessionRecords {
  import opened Wrappers
  import opened Rounding
  import opened EngineTypes
  import opened AdaptiveEngine
  import opened SessionRuntime
  import opened SessionReplay
  import opened SessionInvariant

  // ── Rows of one module ───────────────────────────────────────────────────

  /** What the bank says of the row: the option chosen is the correct one. */
  predicate ChoseCorrectly(c: Setup, r: Response) {
    && r.questionId in c.bank && c.bank[r.questionId].mcq.Some?
    && r.selectedOption == Some(c.bank[r.questionId].mcq.value.correctOption)
  }

  function RowCount(log: seq<Response>, id: ModuleId): nat {
    if log == [] then 0 else RowCount(log[..|log| - 1], id) + (if log[|log| - 1].moduleId == id then 1 else 0)
  }

  function CorrectCount(c: Setup, log: seq<Response>, id: ModuleId): nat {
    if log == [] then 0
    else CorrectCount(c, log[..|log| - 1], id)
         + (if log[|log| - 1].moduleId == id && ChoseCorrectly(c, log[|log| - 1]) then 1 else 0)
  }

  /** The estimates stored with the module's rows, oldest first. */
  function Estimates(log: seq<Response>, id: ModuleId): seq<real> {
    if log == [] then []
    else
      var r := log[|log| - 1];
      Estimates(log[..|log| - 1], id) + (if r.moduleId == id && r.abilityAfter.Some? then [r.abilityAfter.value] else [])
  }

  /** Replaying a log, one row further: the module the row names takes it, and the others do not change. */
  lemma {:induction false} RowStep(c: Setup, log: seq<Response>, i: nat)
    requires ValidSetup(c) && RowsOk(c, log) && log != [] && i < |c.configs|
    ensures var front, r := log[..|log| - 1], log[|log| - 1];
      && RowsOk(c, front) && RowOk(c, r) && r.questionId in c.bank && Replay(c, front)[i].config == c.configs[i]
      && Replay(c, log)[i] == if r.moduleId == c.configs[i].moduleId
                              then ReplayAnswer(c.scoring, Replay(c, front)[i], r, c.bank[r.questionId])
                              else Replay(c, front)[i]
  {
    hide Replay, ReplayAnswer;
    var front, r := log[..|log| - 1], log[|log| - 1];
    assert log == front + [r];
    assert RowOk(c, log[|log| - 1]);
    assert forall k :: 0 <= k < |front| ==> RowOk(c, log[k]);
    var j :| 0 <= j < |c.configs| && c.configs[j].moduleId == r.moduleId;
    ReplayAppend(c, front, r, j);
    ReplayConfig(c, front, i);
  }

  // ── Counts and estimates ─────────────────────────────────────────────────

  lemma {:induction false} CountOne(c: Setup, m: ModuleRun, r: Response, i: nat)
    requires i < |c.configs| && m.config == c.configs[i] && RowOk(c, r) && r.moduleId == c.configs[i].moduleId
    ensures var m1 := ReplayAnswer(c.scoring, m, r, c.bank[r.questionId]);
      && m1.answered == m.answered + 1
      && (if m.config.scoringType.Objective? then
            && m1.correct == m.correct + (if ChoseCorrectly(c, r) then 1 else 0)
            && r.abilityAfter.Some? && m1.ability == r.abilityAfter.value
            && m1.recentAbilities == TrackAbility(m.recentAbilities, r.abilityAfter.value)
          else
            && m1.correct == m.correct && m1.ability == m.ability && m1.recentAbilities == m.recentAbilities
            && r.abilityAfter.None?)
  {
    hide PairsAfter, ApplyTraitWeights, CountPattern, TrackAbility, MarkServed, Round2;
    assert VerdictOk(c, r, c.bank[r.questionId]);
  }

  /**
   * What a log makes of a module: as many answers as it has rows; for objective modules as many correct ones
   * as rows that chose the bank's correct option, the last stored estimate, and a window of the last four.
   */
  lemma {:induction false} ReplayCounts(c: Setup, log: seq<Response>, i: nat)
    requires ValidSetup(c) && RowsOk(c, log) && i < |c.configs|
    ensures var m, id := Replay(c, log)[i], c.configs[i].moduleId; var xs := Estimates(log, id);
      && m.answered == RowCount(log, id)
      && m.correct == (if c.configs[i].scoringType.Objective? then CorrectCount(c, log, id) else 0)
      && |xs| == (if c.configs[i].scoringType.Objective? then RowCount(log, id) else 0)
      && m.ability == (if xs == [] then 1000.0 else xs[|xs| - 1])
      && m.recentAbilities == (if |xs| > 4 then xs[|xs| - 4..] else xs)
  {
    hide Replay, ReplayAnswer, RowOk, RowsOk, ChoseCorrectly;
    if log == [] {
      ReplayStart(c, i);
    } else {
      var front, r := log[..|log| - 1], log[|log| - 1];
      RowStep(c, log, i);
      ReplayCounts(c, front, i);
      if r.moduleId == c.configs[i].moduleId {
        CountOne(c, Replay(c, front)[i], r, i);
      }
    }
  }

  lemma {:induction false} ReplayStart(c: Setup, i: nat)
    requires i < |c.configs|
    ensures Replay(c, [])[i] == CreateModuleState(c.configs[i])
  {
  }

  // ── Trait tallies ────────────────────────────────────────────────────────

  /** What the answer of a row expressed; nothing when no option was chosen. */
  function Expressed(c: Setup, r: Response): Weights {
    var weights :=
      if r.selectedOptions.Some? && r.selectedOptions.value != [] then
        c.scoring.rankingWeights(r.questionId, r.selectedOptions.value)
      else if r.selectedOption.Some? then c.scoring.choiceWeights(r.questionId, r.selectedOption.value)
      else None;
    if weights.Some? then weights.value else map[]
  }

  /** The evaluator made something of the row's answer. */
  predicate WasScored(c: Setup, r: Response) {
    if r.selectedOptions.Some? && r.selectedOptions.value != [] then
      c.scoring.rankingWeights(r.questionId, r.selectedOptions.value).Some?
    else r.selectedOption.Some? && c.scoring.choiceWeights(r.questionId, r.selectedOption.value).Some?
  }

  /** What the question of an answered row made possible. */
  function Possible(c: Setup, r: Response): map<TraitKey, TraitRange> {
    if WasScored(c, r)
    then c.scoring.traitRange(r.questionId, r.selectedOptions.Some? && r.selectedOptions.value != [])
    else map[]
  }

  /** Sums over the module's rows for one trait. */
  datatype Totals = Totals(sum: real, count: nat, squares: real, ranged: nat, chance: real, best: real, worst: real)

  /** The totals of one more row. */
  function TotalsAfter(t: Totals, weights: Weights, ranges: map<TraitKey, TraitRange>, key: TraitKey): Totals {
    var weighed := if key !in weights then t
      else t.(sum := t.sum + weights[key], count := t.count + 1, squares := t.squares + weights[key] * weights[key]);
    if key !in ranges then weighed
    else weighed.(ranged := t.ranged + 1, chance := t.chance + ranges[key].chance,
                  best := t.best + ranges[key].best, worst := t.worst + ranges[key].worst)
  }

  function TotalsOf(c: Setup, log: seq<Response>, id: ModuleId, key: TraitKey): Totals {
    if log == [] then Totals(0.0, 0, 0.0, 0, 0.0, 0.0, 0.0)
    else
      var t, r := TotalsOf(c, log[..|log| - 1], id, key), log[|log| - 1];
      if r.moduleId != id then t else TotalsAfter(t, Expressed(c, r), Possible(c, r), key)
  }

  /** A tally holds a trait's totals, its scale from the first question on that had a range for it. */
  predicate Holds(tallies: map<TraitKey, Tally>, key: TraitKey, t: Totals) {
    && (key in tallies <==> t.count > 0 || t.ranged > 0)
    && (key in tallies ==>
          && tallies[key].sum == t.sum && tallies[key].count == t.count && tallies[key].sumSquares == t.squares
          && tallies[key].scale == (if t.ranged == 0 then None else Some(TraitRange(t.chance, t.best, t.worst))))
  }

  lemma {:induction false} TallyOne(c: Setup, m: ModuleRun, r: Response, i: nat)
    requires i < |c.configs| && m.config == c.configs[i] && c.configs[i].scoringType.Trait?
    requires RowOk(c, r) && r.moduleId == c.configs[i].moduleId
    ensures ReplayAnswer(c.scoring, m, r, c.bank[r.questionId]).traitTallies
            == ApplyTraitWeights(m.traitTallies, Expressed(c, r), Possible(c, r))
  {
    hide PairsAfter, ApplyTraitWeights, CountPattern, MarkServed, Round2;
    assert VerdictOk(c, r, c.bank[r.questionId]);
    NoWeightsNoChange(m.traitTallies);
  }

  lemma {:induction false} TotalsBase(c: Setup, log: seq<Response>, id: ModuleId, key: TraitKey)
    ensures var t := TotalsOf(c, log, id, key);
      && (t.count == 0 ==> t.sum == 0.0 && t.squares == 0.0)
      && (t.ranged == 0 ==> t.chance == 0.0 && t.best == 0.0 && t.worst == 0.0)
  {
    if log != [] {
      TotalsBase(c, log[..|log| - 1], id, key);
    }
  }

  lemma {:induction false} NothingTallied(key: TraitKey)
    ensures Holds(map[], key, Totals(0.0, 0, 0.0, 0, 0.0, 0.0, 0.0))
  {
  }

  lemma {:induction false} HoldsAfter(tallies: map<TraitKey, Tally>, key: TraitKey, t: Totals, weights: Weights,
                                      ranges: map<TraitKey, TraitRange>)
    requires Holds(tallies, key, t)
    requires t.count == 0 ==> t.sum == 0.0 && t.squares == 0.0
    requires t.ranged == 0 ==> t.chance == 0.0 && t.best == 0.0 && t.worst == 0.0
    ensures Holds(ApplyTraitWeights(tallies, weights, ranges), key, TotalsAfter(t, weights, ranges, key))
  {
  }

  /** What a log makes of a trait module's tallies: for every trait, the totals over the module's rows. */
  lemma {:induction false} TalliesAreTotals(c: Setup, log: seq<Response>, i: nat, key: TraitKey)
    requires ValidSetup(c) && RowsOk(c, log) && i < |c.configs| && c.configs[i].scoringType.Trait?
    ensures Holds(Replay(c, log)[i].traitTallies, key, TotalsOf(c, log, c.configs[i].moduleId, key))
  {
    hide Replay, ReplayAnswer, RowOk, RowsOk, Expressed, Possible, TotalsAfter, Holds, ApplyTraitWeights;
    if log == [] {
      NothingTallied(key);
      ReplayStart(c, i);
    } else {
      var front, r := log[..|log| - 1], log[|log| - 1];
      RowStep(c, log, i);
      TalliesAreTotals(c, front, i, key);
      TotalsBase(c, front, c.configs[i].moduleId, key);
      if r.moduleId == c.configs[i].moduleId {
        TallyOne(c, Replay(c, front)[i], r, i);
        HoldsAfter(Replay(c, front)[i].traitTallies, key, TotalsOf(c, front, c.configs[i].moduleId, key),
                   Expressed(c, r), Possible(c, r));
      }
    }
  }

  // ── Patterns ─────────────────────────────────────────────────────────────

  predicate HasPattern(c: Setup, r: Response, p: Pattern) {
    && r.questionId in c.bank && c.bank[r.questionId].personality.Some?
    && c.bank[r.questionId].personality.value.pattern == Some(p)
  }

  function PatternRows(c: Setup, log: seq<Response>, id: ModuleId, p: Pattern): nat {
    if log == [] then 0
    else PatternRows(c, log[..|log| - 1], id, p)
         + (if log[|log| - 1].moduleId == id && HasPattern(c, log[|log| - 1], p) then 1 else 0)
  }

  lemma {:induction false} PatternOne(c: Setup, m: ModuleRun, r: Response, i: nat, p: Pattern)
    requires i < |c.configs| && m.config == c.configs[i] && c.configs[i].scoringType.Trait?
    requires RowOk(c, r) && r.moduleId == c.configs[i].moduleId
    ensures var counts := ReplayAnswer(c.scoring, m, r, c.bank[r.questionId]).patternCounts;
      && (p in counts <==> p in m.patternCounts || HasPattern(c, r, p))
      && (p in counts ==>
            counts[p] == (if p in m.patternCounts then m.patternCounts[p] else 0) + (if HasPattern(c, r, p) then 1 else 0))
  {
    hide PairsAfter, ApplyTraitWeights, MarkServed, Round2;
    assert VerdictOk(c, r, c.bank[r.questionId]);
  }

  /** A trait module counts each pattern once for every row whose question has it, answered or not. */
  lemma {:induction false} PatternsAreCounted(c: Setup, log: seq<Response>, i: nat, p: Pattern)
    requires ValidSetup(c) && RowsOk(c, log) && i < |c.configs| && c.configs[i].scoringType.Trait?
    ensures var counts, n := Replay(c, log)[i].patternCounts, PatternRows(c, log, c.configs[i].moduleId, p);
      (p in counts <==> n > 0) && (p in counts ==> counts[p] == n)
  {
    hide Replay, ReplayAnswer, RowOk, RowsOk, HasPattern;
    if log == [] {
      ReplayStart(c, i);
    } else {
      var front, r := log[..|log| - 1], log[|log| - 1];
      RowStep(c, log, i);
      PatternsAreCounted(c, front, i, p);
      if r.moduleId == c.configs[i].moduleId {
        PatternOne(c, Replay(c, front)[i], r, i, p);
      }
    }
  }

  // ── Probe pairs ──────────────────────────────────────────────────────────

  /** What a row's answer amounts to when it is compared with another: nothing, a verdict, or what it expressed. */
  function SignatureOf(c: Setup, config: ModuleConfig, r: Response): Signature {
    if r.selectedOption.None? && (r.selectedOptions.None? || r.selectedOptions.value == []) then UnansweredSignature
    else if config.scoringType.Objective? then ObjectiveSignature(ChoseCorrectly(c, r))
    else if WasScored(c, r) then TraitSignature(Expressed(c, r))
    else UnansweredSignature
  }

  /** Row `k` is the half of a pair with this question, position and signature. */
  predicate HalfOf(c: Setup, log: seq<Response>, k: nat, config: ModuleConfig, group: GroupName,
                   id: QuestionId, sequence: nat, signature: Signature)
  {
    && k < |log| && log[k].moduleId == config.moduleId && log[k].questionId == id && log[k].sequenceNumber == sequence
    && id in c.bank && c.bank[id].probeGroup == Some(group) && signature == SignatureOf(c, config, log[k])
  }

  /** The pair was opened by an answered row with room for a twin, and closed, if it was, by a later row of its group. */
  ghost predicate PairFromRows(c: Setup, log: seq<Response>, config: ModuleConfig, p: ProbePair) {
    && !p.first.UnansweredSignature?
    && exists k: nat ::
         && k < |log| && HalfOf(c, log, k, config, p.group, p.firstQuestionId, p.firstSequence, p.first)
         && p.askedAtAnswered == RowCount(log[..k + 1], config.moduleId)
         && p.askedAtAnswered + 8 < config.questionCount
         && (p.second.Some? ==>
               exists l: nat ::
                 && k < l
                 && HalfOf(c, log, l, config, p.group, p.second.value.questionId, p.second.value.sequence,
                           p.second.value.signature)
                 && p.second.value.comparison == c.scoring.compare(p.first, p.second.value.signature))
  }

  predicate PairsApart(probes: seq<ProbePair>) {
    && |probes| <= 2
    && forall x, y :: 0 <= x < y < |probes| && probes[x].second.None? && probes[y].second.None? ==>
         probes[x].group != probes[y].group
  }

  lemma {:induction false} HalfLater(c: Setup, log: seq<Response>, r: Response, k: nat, config: ModuleConfig,
                                     group: GroupName, id: QuestionId, sequence: nat, signature: Signature)
    requires HalfOf(c, log, k, config, group, id, sequence, signature)
    ensures HalfOf(c, log + [r], k, config, group, id, sequence, signature)
    ensures RowCount((log + [r])[..k + 1], config.moduleId) == RowCount(log[..k + 1], config.moduleId)
  {
    assert (log + [r])[k] == log[k] && (log + [r])[..k + 1] == log[..k + 1];
  }

  lemma {:induction false} PairLater(c: Setup, log: seq<Response>, r: Response, config: ModuleConfig, p: ProbePair)
    requires PairFromRows(c, log, config, p)
    ensures PairFromRows(c, log + [r], config, p)
  {
    hide RowCount;
    var k: nat :|
      && HalfOf(c, log, k, config, p.group, p.firstQuestionId, p.firstSequence, p.first)
      && p.askedAtAnswered == RowCount(log[..k + 1], config.moduleId)
      && p.askedAtAnswered + 8 < config.questionCount
      && (p.second.Some? ==>
            exists l: nat ::
              && k < l
              && HalfOf(c, log, l, config, p.group, p.second.value.questionId, p.second.value.sequence,
                        p.second.value.signature)
              && p.second.value.comparison == c.scoring.compare(p.first, p.second.value.signature));
    HalfLater(c, log, r, k, config, p.group, p.firstQuestionId, p.firstSequence, p.first);
    if p.second.Some? {
      var l: nat :|
        && k < l
        && HalfOf(c, log, l, config, p.group, p.second.value.questionId, p.second.value.sequence,
                  p.second.value.signature)
        && p.second.value.comparison == c.scoring.compare(p.first, p.second.value.signature);
      HalfLater(c, log, r, l, config, p.group, p.second.value.questionId, p.second.value.sequence,
                p.second.value.signature);
    }
  }

  lemma {:induction false} PairCloses(c: Setup, log: seq<Response>, r: Response, config: ModuleConfig, p: ProbePair)
    requires PairFromRows(c, log, config, p) && p.second.None? && r.moduleId == config.moduleId
    requires r.questionId in c.bank && c.bank[r.questionId].probeGroup == Some(p.group)
    ensures var signature := SignatureOf(c, config, r);
      PairFromRows(c, log + [r], config,
                   p.(second := Some(ProbeTwin(r.questionId, r.sequenceNumber, signature,
                                               c.scoring.compare(p.first, signature)))))
  {
    hide RowCount;
    var signature := SignatureOf(c, config, r);
    var k: nat :|
      && k < |log| && HalfOf(c, log, k, config, p.group, p.firstQuestionId, p.firstSequence, p.first)
      && p.askedAtAnswered == RowCount(log[..k + 1], config.moduleId)
      && p.askedAtAnswered + 8 < config.questionCount;
    HalfLater(c, log, r, k, config, p.group, p.firstQuestionId, p.firstSequence, p.first);
    assert HalfOf(c, log + [r], |log|, config, p.group, r.questionId, r.sequenceNumber, signature);
  }

  lemma {:induction false} PairOpens(c: Setup, log: seq<Response>, r: Response, config: ModuleConfig, group: GroupName)
    requires r.moduleId == config.moduleId && r.questionId in c.bank && c.bank[r.questionId].probeGroup == Some(group)
    requires !SignatureOf(c, config, r).UnansweredSignature?
    requires RowCount(log + [r], config.moduleId) + 8 < config.questionCount
    ensures PairFromRows(c, log + [r], config,
                         ProbePair(group, r.questionId, r.sequenceNumber, SignatureOf(c, config, r),
                                   RowCount(log + [r], config.moduleId), None))
  {
    hide RowCount;
    assert (log + [r])[..|log| + 1] == log + [r];
    assert HalfOf(c, log + [r], |log|, config, group, r.questionId, r.sequenceNumber, SignatureOf(c, config, r));
  }

  lemma {:induction false} PairsStep(c: Setup, log: seq<Response>, r: Response, config: ModuleConfig,
                                     probes: seq<ProbePair>)
    requires (forall x :: 0 <= x < |probes| ==> PairFromRows(c, log, config, probes[x])) && PairsApart(probes)
    requires r.moduleId == config.moduleId && r.questionId in c.bank
    ensures var after := PairsAfter(c.scoring, probes, RowCount(log + [r], config.moduleId), config.questionCount,
                                    c.bank[r.questionId].probeGroup, r.questionId, r.sequenceNumber,
                                    SignatureOf(c, config, r));
      (forall x :: 0 <= x < |after| ==> PairFromRows(c, log + [r], config, after[x])) && PairsApart(after)
  {
    hide PairFromRows, RowCount, SignatureOf;
    forall x | 0 <= x < |probes|
      ensures PairFromRows(c, log + [r], config, probes[x])
    {
      PairLater(c, log, r, config, probes[x]);
    }
    var group, signature := c.bank[r.questionId].probeGroup, SignatureOf(c, config, r);
    if group.Some? {
      var x := OpenPairFrom(probes, group.value, 0);
      if x < |probes| {
        PairCloses(c, log, r, config, probes[x]);
      } else if !signature.UnansweredSignature?
                && CanOpenPair(probes, RowCount(log + [r], config.moduleId), config.questionCount)
      {
        PairOpens(c, log, r, config, group.value);
      }
    }
  }

  lemma {:induction false} PairOne(c: Setup, m: ModuleRun, r: Response, i: nat)
    requires i < |c.configs| && m.config == c.configs[i] && RowOk(c, r) && r.moduleId == c.configs[i].moduleId
    ensures ReplayAnswer(c.scoring, m, r, c.bank[r.questionId]).probes
            == PairsAfter(c.scoring, m.probes, m.answered + 1, m.config.questionCount, c.bank[r.questionId].probeGroup,
                          r.questionId, r.sequenceNumber, SignatureOf(c, m.config, r))
  {
    hide PairsAfter, ApplyTraitWeights, CountPattern, TrackAbility, MarkServed, Round2;
    assert VerdictOk(c, r, c.bank[r.questionId]);
  }

  /**
   * What a log makes of a module's probe pairs: each was opened by an answered row of its group with more
   * than eight questions to go, closed - if it was - by a later row of the group, and compares what those two
   * rows say; at most two pairs, and at most one open pair for a group.
   */
  lemma {:induction false} PairsFromRows(c: Setup, log: seq<Response>, i: nat)
    requires ValidSetup(c) && RowsOk(c, log) && i < |c.configs|
    ensures var probes := Replay(c, log)[i].probes;
      (forall x :: 0 <= x < |probes| ==> PairFromRows(c, log, c.configs[i], probes[x])) && PairsApart(probes)
  {
    hide Replay, ReplayAnswer, RowOk, RowsOk, PairFromRows, PairsAfter, SignatureOf, PairsApart;
    if log == [] {
      ReplayStart(c, i);
      NothingPaired();
    } else {
      var front, r := log[..|log| - 1], log[|log| - 1];
      assert log == front + [r];
      RowStep(c, log, i);
      PairsFromRows(c, front, i);
      var probes := Replay(c, front)[i].probes;
      if r.moduleId == c.configs[i].moduleId {
        PairOne(c, Replay(c, front)[i], r, i);
        ReplayCounts(c, front, i);
        PairsStep(c, front, r, c.configs[i], probes);
      } else {
        forall x | 0 <= x < |probes|
          ensures PairFromRows(c, log, c.configs[i], probes[x])
        {
          PairLater(c, front, r, c.configs[i], probes[x]);
        }
      }
    }
  }

  /** Some pair of the group waits for its twin. */
  predicate Waiting(probes: seq<ProbePair>, group: GroupName) {
    exists x :: 0 <= x < |probes| && probes[x].group == group && probes[x].second.None?
  }

  /**
   * When a row opens a pair: exactly when its question has a group, no pair of the group is waiting, it was
   * answered, fewer than two pairs were opened before, and more than eight questions are to go. It closes the
   * waiting pair of its group exactly when there is one.
   */
  lemma {:induction false} PairOpenedIff(c: Setup, log: seq<Response>, i: nat)
    requires ValidSetup(c) && RowsOk(c, log) && log != [] && i < |c.configs|
    requires log[|log| - 1].moduleId == c.configs[i].moduleId
    ensures var r := log[|log| - 1];
      r.questionId in c.bank &&
      var before, after, group := Replay(c, log[..|log| - 1])[i].probes, Replay(c, log)[i].probes, c.bank[r.questionId].probeGroup;
      && (|after| == |before| + 1 || |after| == |before|)
      && (|after| == |before| + 1 <==>
            && group.Some? && !Waiting(before, group.value) && |before| < 2
            && !SignatureOf(c, c.configs[i], r).UnansweredSignature?
            && RowCount(log, c.configs[i].moduleId) + 8 < c.configs[i].questionCount)
      && (group.Some? && Waiting(before, group.value) ==>
            exists x :: 0 <= x < |before| && before[x].group == group.value && before[x].second.None?
              && after[x].second.Some? && after[x].second.value.questionId == r.questionId)
  {
    hide Replay, ReplayAnswer, RowOk, RowsOk, SignatureOf, RowCount;
    var front, r := log[..|log| - 1], log[|log| - 1];
    RowStep(c, log, i);
    PairOne(c, Replay(c, front)[i], r, i);
    ReplayCounts(c, front, i);
    CountNext(front, r, c.configs[i].moduleId);
    assert log == front + [r];
  }

  lemma {:induction false} CountNext(log: seq<Response>, r: Response, id: ModuleId)
    ensures RowCount(log + [r], id) == RowCount(log, id) + (if r.moduleId == id then 1 else 0)
  {
    assert (log + [r])[..|log|] == log;
  }

  lemma {:induction false} NothingPaired()
    ensures PairsApart([])
  {
  }

  // ── Probe groups put on screen ───────────────────────────────────────────

  /** The groups listed are those of the questions listed. */
  ghost predicate GroupsOf(c: Setup, groups: seq<GroupName>, seen: seq<QuestionId>) {
    forall g :: g in groups <==> exists id :: id in seen && id in c.bank && c.bank[id].probeGroup == Some(g)
  }

  lemma {:induction false} GroupsNext(c: Setup, groups: seq<GroupName>, seen: seq<QuestionId>, id: QuestionId)
    requires GroupsOf(c, groups, seen) && id in c.bank
    ensures GroupsOf(c, MarkServed(groups, c.bank[id].probeGroup), seen + [id])
  {
    forall g
      ensures g in MarkServed(groups, c.bank[id].probeGroup) <==>
              exists q :: q in seen + [id] && q in c.bank && c.bank[q].probeGroup == Some(g)
    {
      if g in MarkServed(groups, c.bank[id].probeGroup) {
        if g in groups {
          var q :| q in seen && q in c.bank && c.bank[q].probeGroup == Some(g);
          assert q in seen + [id];
        } else {
          assert id in seen + [id];
        }
      }
    }
  }

  lemma {:induction false} GroupOne(c: Setup, m: ModuleRun, r: Response)
    requires RowOk(c, r)
    ensures var m1 := ReplayAnswer(c.scoring, m, r, c.bank[r.questionId]);
      m1.servedGroups == MarkServed(m.servedGroups, c.bank[r.questionId].probeGroup) && m1.seen == m.seen + [r.questionId]
  {
    hide PairsAfter, ApplyTraitWeights, CountPattern, TrackAbility, MarkServed, Round2;
  }

  lemma {:induction false} ReplayGroups(c: Setup, log: seq<Response>, i: nat)
    requires ValidSetup(c) && RowsOk(c, log) && i < |c.configs|
    ensures GroupsOf(c, Replay(c, log)[i].servedGroups, Replay(c, log)[i].seen)
  {
    hide Replay, ReplayAnswer, RowOk, RowsOk, GroupsOf, MarkServed;
    if log == [] {
      ReplayStart(c, i);
      NoGroups(c);
    } else {
      var front, r := log[..|log| - 1], log[|log| - 1];
      RowStep(c, log, i);
      ReplayGroups(c, front, i);
      if r.moduleId == c.configs[i].moduleId {
        GroupOne(c, Replay(c, front)[i], r);
        GroupsNext(c, Replay(c, front)[i].servedGroups, Replay(c, front)[i].seen, r.questionId);
      }
    }
  }

  lemma {:induction false} NoGroups(c: Setup)
    ensures GroupsOf(c, [], [])
  {
  }

  /** Over runs, a live module keeps out exactly the groups of which a question was shown, answered or not. */
  lemma {:induction false} GroupsOverRuns(c: Setup, candidateId: CandidateId, start: int, events: seq<Event>, i: nat)
    requires ValidSetup(c) && ValidEvents(c, events) && i < |c.configs|
    requires var w := Run(c, Create(c, candidateId, start), events); w.row.status.SessionInProgress? && w.store.Some?
    ensures var st := Run(c, Create(c, candidateId, start), events).store.value;
      i < |st.modules| && GroupsOf(c, st.modules[i].servedGroups, st.modules[i].seen)
  {
    hide Run, RowsOk, LogOk, Replay, ResultsOk, Fits, GroupsOf, MarkServed;
    RunKept(c, candidateId, start, events);
    var w := Run(c, Create(c, candidateId, start), events);
    RunRows(c, w);
    var f :| RunningOk(c, w, f);
    var st := w.store.value;
    ReplayGroups(c, w.responses, i);
    var r := Replay(c, w.responses)[i];
    assert Mirrors(c, r, st.modules[i], ShownIn(st, i));
    if ShownIn(st, i).Some? {
      GroupsNext(c, r.servedGroups, r.seen, ShownIn(st, i).value);
    }
  }

  // ── Over runs ────────────────────────────────────────────────────────────

  /** The rows of a session in any reachable state. */
  lemma {:induction false} RunRows(c: Setup, w: World)
    requires Inv(c, w)
    ensures LogOk(c, w.responses, w.row.expiresAt) && RowsOk(c, w.responses)
  {
    hide Replay, RowOk, SameScores, LiveOk, FinishedLiveOk;
  }

  /**
   * In every reachable state, the row of an objective module says it was answered correctly if and only if
   * the option stored with it is the bank's correct one - so an unanswered question counts as wrong - and the
   * row of a trait module says nothing of the kind.
   */
  lemma {:induction false} VerdictsOverRuns(c: Setup, candidateId: CandidateId, start: int, events: seq<Event>,
                                            k: nat, i: nat)
    requires ValidSetup(c) && ValidEvents(c, events) && i < |c.configs|
    requires var log := Run(c, Create(c, candidateId, start), events).responses;
      k < |log| && log[k].moduleId == c.configs[i].moduleId
    ensures var r := Run(c, Create(c, candidateId, start), events).responses[k];
      && r.questionId in c.bank
      && (c.configs[i].scoringType.Objective? ==>
            c.bank[r.questionId].mcq.Some?
            && r.isCorrect == Some(r.selectedOption == Some(c.bank[r.questionId].mcq.value.correctOption)))
      && (c.configs[i].scoringType.Trait? ==> r.isCorrect.None?)
  {
    hide Run, RowsOk;
    RunKept(c, candidateId, start, events);
    var w := Run(c, Create(c, candidateId, start), events);
    RunRows(c, w);
    assert RowOk(c, w.responses[k]) && VerdictOk(c, w.responses[k], c.bank[w.responses[k].questionId]);
  }

  /** A stored result, as a summary of the module's rows. */
  ghost predicate Summarises(c: Setup, log: seq<Response>, config: ModuleConfig, result: ModuleResult) {
    var id, xs := config.moduleId, Estimates(log, config.moduleId);
    && result.questionsAnswered == RowCount(log, id)
    && result.questionsCorrect == (if config.scoringType.Objective? then CorrectCount(c, log, id) else 0)
    && result.abilityScore == (if xs == [] then None else Some(xs[|xs| - 1]))
    && (result.traitScores.Some? <==> config.scoringType.Trait? && RowCount(log, id) > 0)
    && (result.traitScores.Some? ==>
          exists tallies ::
            && result.traitScores == Some(c.scoring.traitScores(tallies))
            && forall key :: Holds(tallies, key, TotalsOf(c, log, id, key)))
    && (result.probeResults.Some? ==>
          && result.probeResults.value != [] && PairsApart(result.probeResults.value)
          && forall x :: 0 <= x < |result.probeResults.value| ==>
               PairFromRows(c, log, config, result.probeResults.value[x]))
  }

  lemma {:induction false} SummaryOf(c: Setup, log: seq<Response>, i: nat, result: ModuleResult)
    requires ValidSetup(c) && RowsOk(c, log) && i < |c.configs|
    requires SameScores(c.scoring, result, Replay(c, log)[i])
    ensures Summarises(c, log, c.configs[i], result)
  {
    hide Replay, RowsOk, Holds, TotalsOf, PairFromRows, PairsApart, FromLog, Round2, CorrectCount, RowCount, Estimates;
    var m, config := Replay(c, log)[i], c.configs[i];
    ReplayConfig(c, log, i);
    ReplayCounts(c, log, i);
    ReplayFacts(c, log);
    RoundedFromLog(m, config);
    PairsFromRows(c, log, i);
    if config.scoringType.Trait? && m.answered > 0 {
      forall key
        ensures Holds(m.traitTallies, key, TotalsOf(c, log, config.moduleId, key))
      {
        TalliesAreTotals(c, log, i, key);
      }
      assert result.traitScores == Some(c.scoring.traitScores(m.traitTallies));
    }
  }

  lemma {:induction false} RoundedFromLog(m: ModuleRun, config: ModuleConfig)
    requires FromLog(m, config)
    ensures Round2(m.ability) == m.ability
  {
  }

  lemma {:induction false} StoredSame(c: Setup, w: World, i: nat)
    requires Inv(c, w) && i < |c.configs| && c.configs[i].moduleId in w.results
    ensures SameScores(c.scoring, w.results[c.configs[i].moduleId], Replay(c, w.responses)[i])
    ensures FinalReason(c.configs[i], w.results[c.configs[i].moduleId])
  {
    hide Replay, LogOk, LiveOk, FinishedLiveOk;
    if !FinishedOk(c, w) {
      var f :| RunningOk(c, w, f);
      assert i < f;
    }
  }

  /**
   * In every reachable state every stored result is a summary of its module's rows, as the bank has them:
   * how many there are, how many chose the correct option, the last estimate, the traits scored from the sums
   * over the rows, and the pairs the rows make.
   */
  lemma {:induction false} ResultsSummarise(c: Setup, candidateId: CandidateId, start: int, events: seq<Event>, i: nat)
    requires ValidSetup(c) && ValidEvents(c, events) && i < |c.configs|
    requires c.configs[i].moduleId in Run(c, Create(c, candidateId, start), events).results
    ensures var w := Run(c, Create(c, candidateId, start), events);
      Summarises(c, w.responses, c.configs[i], w.results[c.configs[i].moduleId])
  {
    hide Run, SameScores, RowsOk, LogOk, Inv, Summarises;
    RunKept(c, candidateId, start, events);
    var w := Run(c, Create(c, candidateId, start), events);
    RunRows(c, w);
    StoredSame(c, w, i);
    SummaryOf(c, w.responses, i, w.results[c.configs[i].moduleId]);
  }

  /** The live module of a running session agrees with its rows in every count, tally, pattern and pair. */
  lemma {:induction false} LiveSummarises(c: Setup, candidateId: CandidateId, start: int, events: seq<Event>, i: nat)
    requires ValidSetup(c) && ValidEvents(c, events) && i < |c.configs|
    requires var w := Run(c, Create(c, candidateId, start), events); w.row.status.SessionInProgress? && w.store.Some?
    ensures var w := Run(c, Create(c, candidateId, start), events);
      && i < |w.store.value.modules|
      && var m, id := w.store.value.modules[i], c.configs[i].moduleId;
         && m.answered == RowCount(w.responses, id)
         && m.correct == (if c.configs[i].scoringType.Objective? then CorrectCount(c, w.responses, id) else 0)
         && (c.configs[i].scoringType.Trait? ==>
               forall key :: Holds(m.traitTallies, key, TotalsOf(c, w.responses, id, key)))
         && PairsApart(m.probes)
         && forall x :: 0 <= x < |m.probes| ==> PairFromRows(c, w.responses, c.configs[i], m.probes[x])
  {
    hide Run, RowsOk, LogOk, Replay, Holds, TotalsOf, PairFromRows, PairsApart, ResultsOk, Fits, CorrectCount, RowCount, Estimates;
    RunKept(c, candidateId, start, events);
    var w := Run(c, Create(c, candidateId, start), events);
    RunRows(c, w);
    var f :| RunningOk(c, w, f);
    var st := w.store.value;
    assert Mirrors(c, Replay(c, w.responses)[i], st.modules[i], ShownIn(st, i));
    ReplayCounts(c, w.responses, i);
    PairsFromRows(c, w.responses, i);
    if c.configs[i].scoringType.Trait? {
      forall key
        ensures Holds(st.modules[i].traitTallies, key, TotalsOf(c, w.responses, c.configs[i].moduleId, key))
      {
        TalliesAreTotals(c, w.responses, i, key);
      }
    }
  }

  /**
   * Why modules close. While the session runs, a closed module's time was up exactly when it closed at or
   * after its start plus its limit, and otherwise it had asked all its questions or had none left to ask;
   * after the end the last two still hold, and a module without a reason was never answered.
   */
  lemma {:induction false} ReasonsOverRuns(c: Setup, candidateId: CandidateId, start: int, events: seq<Event>, i: nat)
    requires ValidSetup(c) && ValidEvents(c, events) && i < |c.configs|
    requires c.configs[i].moduleId in Run(c, Create(c, candidateId, start), events).results
    ensures var w := Run(c, Create(c, candidateId, start), events);
      var result, limit := w.results[c.configs[i].moduleId], c.configs[i].timeLimitSeconds * 1000;
      && (result.stopReason == Some(MaxQuestions) ==> result.questionsAnswered == c.configs[i].questionCount)
      && (result.stopReason == Some(PoolExhausted) || result.stopReason == Some(ConfidenceReached) ==>
            result.questionsAnswered < c.configs[i].questionCount)
      && (result.stopReason.None? ==> result.questionsAnswered == 0)
      && (result.stopReason.Some? <==> result.completedAt.Some?)
      && (w.row.status.SessionInProgress? ==>
            && result.startedAt.Some? && result.completedAt.Some?
            && (result.stopReason == Some(TimeExpired) <==>
                  result.completedAt.value >= result.startedAt.value + limit))
  {
    hide Run, SameScores, LogOk, Replay, LiveOk, FinishedLiveOk;
    RunKept(c, candidateId, start, events);
    var w := Run(c, Create(c, candidateId, start), events);
    StoredSame(c, w, i);
    if w.row.status.SessionInProgress? {
      var f :| RunningOk(c, w, f);
      assert i < f && ResultReasonOk(c.configs[i], w.results[c.configs[i].moduleId]);
    }
  }
}
