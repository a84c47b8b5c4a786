/** From module results to the overall score, the recommendation and the named findings. */
module ReportBuilder {
  import opened Wrappers
  import opened Rounding
  import opened BehavioralProfiles

  const ABILITY_FLOOR: real := 600.0
  const ABILITY_CEILING: real := 1400.0
  const ABILITY_WEIGHT: real := 0.7
  const BEHAVIORAL_WEIGHT: real := 0.3
  const STRONGLY_RECOMMENDED_AT: real := 75.0
  const RECOMMENDED_AT: real := 55.0
  const BORDERLINE_AT: real := 40.0
  const MIN_COVERAGE_RATIO: real := 0.6
  const STRONG_SCORE: real := 65.0
  const WEAK_SCORE: real := 35.0
  const MIN_FINDING_CONFIDENCE: real := 0.8
  const MIN_FINDING_ANSWERS: nat := 3

  datatype Recommendation = NotRecommended | Borderline | Recommended | StronglyRecommended

  datatype ModuleSummary = ModuleSummary(
    name: string,
    objective: bool,
    score: Option<real>,
    questionsAnswered: nat,
    questionCount: nat,
    traits: seq<ReportedTrait>)

  datatype Report = Report(
    recommendation: Option<Recommendation>,
    overallScore: Option<real>,
    abilityScore: Option<real>,
    behavioralScore: Option<real>,
    profiles: seq<ProfileScore>)

  // ── Scores ───────────────────────────────────────────────────────────────

  function Clamp01(x: real): real {
    if x < 0.0 then 0.0 else if x > 1.0 then 1.0 else x
  }

  /** Elo estimate onto the 0-100 scale, clamped to the bank's range. */
  function NormaliseAbility(ability: real): real {
    Round1(Clamp01((ability - ABILITY_FLOOR) / (ABILITY_CEILING - ABILITY_FLOOR)) * 100.0)
  }

  predicate Attempted(m: ModuleSummary) {
    m.objective && m.questionsAnswered > 0
  }

  /** The summed score and the number of the attempted objective modules. */
  function AttemptedTotals(modules: seq<ModuleSummary>): (sumAndCount: (real, nat)) {
    if modules == [] then (0.0, 0)
    else
      var (sum, count) := AttemptedTotals(modules[..|modules| - 1]);
      var last := modules[|modules| - 1];
      if Attempted(last) then (sum + (if last.score.Some? then last.score.value else 0.0), count + 1)
      else (sum, count)
  }

  function AbilityScore(modules: seq<ModuleSummary>): Option<real> {
    var (sum, count) := AttemptedTotals(modules);
    if count == 0 then None else Some(Round1(sum / count as real))
  }

  function AllTraits(modules: seq<ModuleSummary>): seq<ReportedTrait> {
    if modules == [] then [] else AllTraits(modules[..|modules| - 1]) + modules[|modules| - 1].traits
  }

  /** The weighted mean of whichever halves are present, and nothing without either. */
  function BlendScores(ability: Option<real>, behavioral: Option<real>): Option<real> {
    match (ability, behavioral)
    case (None, None) => None
    case (Some(a), None) => Some(Round1(a * ABILITY_WEIGHT / ABILITY_WEIGHT))
    case (None, Some(b)) => Some(Round1(b * BEHAVIORAL_WEIGHT / BEHAVIORAL_WEIGHT))
    case (Some(a), Some(b)) =>
      Some(Round1((a * ABILITY_WEIGHT + b * BEHAVIORAL_WEIGHT) / (ABILITY_WEIGHT + BEHAVIORAL_WEIGHT)))
  }

  function Asked(modules: seq<ModuleSummary>): nat {
    if modules == [] then 0 else Asked(modules[..|modules| - 1]) + modules[|modules| - 1].questionCount
  }

  function AnsweredIn(modules: seq<ModuleSummary>): nat {
    if modules == [] then 0 else AnsweredIn(modules[..|modules| - 1]) + modules[|modules| - 1].questionsAnswered
  }

  /** Answers given per question configured, capped at 1, and 1 when none are configured. */
  function CoverageRatio(modules: seq<ModuleSummary>): real {
    var expected := Asked(modules);
    if expected == 0 then 1.0
    else
      var ratio := AnsweredIn(modules) as real / expected as real;
      if ratio > 1.0 then 1.0 else ratio
  }

  function Banded(score: real): Recommendation {
    if score >= STRONGLY_RECOMMENDED_AT then StronglyRecommended
    else if score >= RECOMMENDED_AT then Recommended
    else if score >= BORDERLINE_AT then Borderline
    else NotRecommended
  }

  /** Bands on the overall score, capped at borderline when too little was answered; no score, no recommendation. */
  function Recommend(overall: Option<real>, coverage: real): Option<Recommendation> {
    if overall.None? then None
    else
      var banded := Banded(overall.value);
      if coverage >= MIN_COVERAGE_RATIO then Some(banded)
      else if banded.StronglyRecommended? || banded.Recommended? then Some(Borderline)
      else Some(banded)
  }

  function BuildReport(modules: seq<ModuleSummary>): Report {
    var ability := AbilityScore(modules);
    var profiles := Profiles(AllTraits(modules), BEHAVIORAL_PROFILES);
    var behavioral := BehavioralIndex(profiles);
    var overall := BlendScores(ability, behavioral);
    Report(Recommend(overall, CoverageRatio(modules)), overall, ability, behavioral, profiles)
  }

  // ── Findings ─────────────────────────────────────────────────────────────

  datatype Finding =
    | ModuleFinding(name: string, moduleScore: real)
    | TraitFinding(traitKey: Key, traitScore: real)
    | ThinSection(section: string, answered: nat, asked: nat)
    | ProfileFinding(profileKey: Key, profileScore: Option<real>)

  function TraitStrengths(traits: seq<ReportedTrait>): seq<Finding> {
    if traits == [] then []
    else
      var t := traits[|traits| - 1];
      TraitStrengths(traits[..|traits| - 1])
      + (if t.confidence >= MIN_FINDING_CONFIDENCE && t.score >= STRONG_SCORE
         then [TraitFinding(t.key, t.score)] else [])
  }

  function TraitWeaknesses(traits: seq<ReportedTrait>): seq<Finding> {
    if traits == [] then []
    else
      var t := traits[|traits| - 1];
      TraitWeaknesses(traits[..|traits| - 1])
      + (if t.confidence >= MIN_FINDING_CONFIDENCE && t.score <= WEAK_SCORE
         then [TraitFinding(t.key, t.score)] else [])
  }

  predicate IsEstablished(m: ModuleSummary) {
    m.questionsAnswered >= MIN_FINDING_ANSWERS
  }

  function ModuleStrengths(modules: seq<ModuleSummary>): seq<Finding> {
    if modules == [] then []
    else
      var m := modules[|modules| - 1];
      ModuleStrengths(modules[..|modules| - 1])
      + (if m.score.Some? && m.score.value >= STRONG_SCORE && IsEstablished(m)
         then [ModuleFinding(m.name, m.score.value)] else [])
      + TraitStrengths(m.traits)
  }

  function ModuleWeaknesses(modules: seq<ModuleSummary>): seq<Finding> {
    if modules == [] then []
    else
      var m := modules[|modules| - 1];
      ModuleWeaknesses(modules[..|modules| - 1])
      + (if m.score.Some? && m.score.value <= WEAK_SCORE && IsEstablished(m)
         then [ModuleFinding(m.name, m.score.value)] else [])
      + TraitWeaknesses(m.traits)
      + (if 0 < m.questionsAnswered < m.questionCount
         then [ThinSection(m.name, m.questionsAnswered, m.questionCount)] else [])
  }

  /** The established composites in a band. */
  function ProfileFindings(profiles: seq<ProfileScore>, band: Band): seq<Finding> {
    if profiles == [] then []
    else
      var p := profiles[|profiles| - 1];
      ProfileFindings(profiles[..|profiles| - 1], band)
      + (if p.confidence >= MIN_FINDING_CONFIDENCE && p.band == Some(band)
         then [ProfileFinding(p.key, p.score)] else [])
  }

  function Strengths(modules: seq<ModuleSummary>, profiles: seq<ProfileScore>): seq<Finding> {
    ModuleStrengths(modules) + ProfileFindings(profiles, Strong)
  }

  function Weaknesses(modules: seq<ModuleSummary>, profiles: seq<ProfileScore>): seq<Finding> {
    ModuleWeaknesses(modules) + ProfileFindings(profiles, Developing)
  }

  // ── Hull and range ───────────────────────────────────────────────────────

  /** The overall score lies between its two halves, and is the half itself when there is only one. */
  lemma {:induction false} BlendBetweenHalves(ability: Option<real>, behavioral: Option<real>)
    requires ability.Some? ==> OnTenths(ability.value)
    requires behavioral.Some? ==> OnTenths(behavioral.value)
    ensures BlendScores(ability, behavioral).Some? <==> ability.Some? || behavioral.Some?
    ensures ability.Some? && behavioral.None? ==> BlendScores(ability, behavioral) == ability
    ensures ability.None? && behavioral.Some? ==> BlendScores(ability, behavioral) == behavioral
    ensures ability.Some? && behavioral.Some? ==>
      var a, b, r := ability.value, behavioral.value, BlendScores(ability, behavioral).value;
      (if a <= b then a <= r <= b else b <= r <= a)
  {
    match (ability, behavioral)
    case (Some(a), None) =>
      assert a * ABILITY_WEIGHT / ABILITY_WEIGHT == a;
      Round1OnTenths(a);
    case (None, Some(b)) =>
      assert b * BEHAVIORAL_WEIGHT / BEHAVIORAL_WEIGHT == b;
      Round1OnTenths(b);
    case (Some(a), Some(b)) =>
      var blend := (a * ABILITY_WEIGHT + b * BEHAVIORAL_WEIGHT) / (ABILITY_WEIGHT + BEHAVIORAL_WEIGHT);
      if a <= b {
        Round1Between(a, blend, b);
      } else {
        Round1Between(b, blend, a);
      }
    case (None, None) =>
  }

  lemma {:induction false} NormalisedInRange(ability: real)
    ensures 0.0 <= NormaliseAbility(ability) <= 100.0 && OnTenths(NormaliseAbility(ability))
  {
    var x := Clamp01((ability - ABILITY_FLOOR) / (ABILITY_CEILING - ABILITY_FLOOR)) * 100.0;
    assert IsTenths(0, 0.0) && IsTenths(1000, 100.0);
    Round1Between(0.0, x, 100.0);
    Round1OnTenths(x);
  }

  lemma {:induction false} AttemptedBounded(modules: seq<ModuleSummary>)
    requires forall m :: m in modules && m.score.Some? ==> 0.0 <= m.score.value <= 100.0
    ensures 0.0 <= AttemptedTotals(modules).0 <= 100.0 * AttemptedTotals(modules).1 as real
  {
    if modules != [] {
      AttemptedBounded(modules[..|modules| - 1]);
      assert modules[|modules| - 1] in modules;
    }
  }

  lemma {:induction false} AbilityInRange(modules: seq<ModuleSummary>)
    requires forall m :: m in modules && m.score.Some? ==> 0.0 <= m.score.value <= 100.0
    requires AbilityScore(modules).Some?
    ensures 0.0 <= AbilityScore(modules).value <= 100.0 && OnTenths(AbilityScore(modules).value)
  {
    AttemptedBounded(modules);
    var (sum, n) := AttemptedTotals(modules);
    QuotientBetween(0.0, sum, 100.0, n as real);
    assert IsTenths(0, 0.0) && IsTenths(1000, 100.0);
    Round1Between(0.0, sum / n as real, 100.0);
    Round1OnTenths(sum / n as real);
  }

  /** Every trait score in the report is in 0..100. */
  ghost predicate TraitsInRange(traits: seq<ReportedTrait>) {
    forall i :: 0 <= i < |traits| ==> 0.0 <= traits[i].score <= 100.0
  }

  lemma {:induction false} LookupInRange(traits: seq<ReportedTrait>, key: Key)
    requires TraitsInRange(traits) && Lookup(traits, key).Some?
    ensures 0.0 <= Lookup(traits, key).value.score <= 100.0
  {
    if traits[|traits| - 1].key != key {
      LookupInRange(traits[..|traits| - 1], key);
    }
  }

  lemma {:induction false} PresentInRange(traits: seq<ReportedTrait>, shares: seq<Share>)
    requires TraitsInRange(traits)
    ensures ScoresWithin(Present(traits, shares), 0.0, 100.0)
  {
    if shares != [] {
      PresentInRange(traits, shares[..|shares| - 1]);
      if Lookup(traits, shares[|shares| - 1].key).Some? {
        LookupInRange(traits, shares[|shares| - 1].key);
      }
    }
  }

  lemma {:induction false} ProfilesInRange(traits: seq<ReportedTrait>, ds: seq<Definition>)
    requires TraitsInRange(traits) && PositiveDefinitions(ds)
    ensures forall i :: 0 <= i < |Profiles(traits, ds)| && Profiles(traits, ds)[i].score.Some? ==>
      0.0 <= Profiles(traits, ds)[i].score.value <= 100.0
  {
    if ds != [] {
      var d := ds[|ds| - 1];
      ProfilesInRange(traits, ds[..|ds| - 1]);
      PresentInRange(traits, d.weights);
      if Composite(traits, d).Some? && Composite(traits, d).value.score.Some? {
        CompositeInRange(traits, d);
      }
    }
  }

  lemma {:induction false} AuthoredDefinitionsPositive()
    ensures PositiveDefinitions(BEHAVIORAL_PROFILES)
  {
    forall d | 0 <= d < |BEHAVIORAL_PROFILES|
      ensures PositiveShares(BEHAVIORAL_PROFILES[d].weights)
    {
      AuthoredSharesPositive(d);
    }
  }

  /**
   * With module and trait scores in 0..100, every composite, the index, the ability score and the overall
   * score of a report are in 0..100, and the overall score lies between its halves.
   */
  lemma {:induction false} ReportInRange(modules: seq<ModuleSummary>)
    requires forall m :: m in modules && m.score.Some? ==> 0.0 <= m.score.value <= 100.0
    requires TraitsInRange(AllTraits(modules))
    ensures var r := BuildReport(modules);
      && (r.abilityScore.Some? ==> 0.0 <= r.abilityScore.value <= 100.0)
      && (r.behavioralScore.Some? ==> 0.0 <= r.behavioralScore.value <= 100.0)
      && (forall i :: 0 <= i < |r.profiles| && r.profiles[i].score.Some? ==> 0.0 <= r.profiles[i].score.value <= 100.0)
      && (r.overallScore.Some? ==> 0.0 <= r.overallScore.value <= 100.0)
      && (r.abilityScore.Some? && r.behavioralScore.Some? ==>
            var a, b, o := r.abilityScore.value, r.behavioralScore.value, r.overallScore.value;
            if a <= b then a <= o <= b else b <= o <= a)
  {
    hide Profiles, BlendScores, AbilityScore, BehavioralIndex;
    var traits := AllTraits(modules);
    AuthoredDefinitionsPositive();
    ProfilesInRange(traits, BEHAVIORAL_PROFILES);
    var profiles := Profiles(traits, BEHAVIORAL_PROFILES);
    if AbilityScore(modules).Some? {
      AbilityInRange(modules);
    }
    if BehavioralIndex(profiles).Some? {
      IndexInRange(profiles);
    }
    BlendBetweenHalves(AbilityScore(modules), BehavioralIndex(profiles));
  }

  // ── Monotonicity ─────────────────────────────────────────────────────────

  /** The same modules with the same counts and confidences, and no lower a module or trait score. */
  ghost predicate ModulesRaised(modules: seq<ModuleSummary>, raised: seq<ModuleSummary>) {
    && |raised| == |modules|
    && forall i :: 0 <= i < |modules| ==> ModuleRaised(modules[i], raised[i])
  }

  ghost predicate ModuleRaised(m: ModuleSummary, r: ModuleSummary) {
    && r == m.(score := r.score, traits := r.traits)
    && (r.score.Some? <==> m.score.Some?) && (m.score.Some? ==> r.score.value >= m.score.value)
    && Raised(m.traits, r.traits)
  }

  lemma {:induction false} RaisedConcat(a: seq<ReportedTrait>, a1: seq<ReportedTrait>,
                                        b: seq<ReportedTrait>, b1: seq<ReportedTrait>)
    requires Raised(a, a1) && Raised(b, b1)
    ensures Raised(a + b, a1 + b1)
  {
  }

  lemma {:induction false} TraitsOfRaised(modules: seq<ModuleSummary>, raised: seq<ModuleSummary>)
    requires ModulesRaised(modules, raised)
    ensures Raised(AllTraits(modules), AllTraits(raised))
  {
    hide Raised;
    if modules == [] {
      NothingRaised();
    } else {
      TraitsOfRaised(modules[..|modules| - 1], raised[..|raised| - 1]);
      assert ModuleRaised(modules[|modules| - 1], raised[|raised| - 1]);
      RaisedConcat(AllTraits(modules[..|modules| - 1]), AllTraits(raised[..|raised| - 1]),
                   modules[|modules| - 1].traits, raised[|raised| - 1].traits);
    }
  }

  lemma {:induction false} NothingRaised()
    ensures Raised([], [])
  {
  }

  lemma {:induction false} CountsOfRaised(modules: seq<ModuleSummary>, raised: seq<ModuleSummary>)
    requires ModulesRaised(modules, raised)
    ensures AttemptedTotals(raised).0 >= AttemptedTotals(modules).0
    ensures AttemptedTotals(raised).1 == AttemptedTotals(modules).1
    ensures Asked(raised) == Asked(modules) && AnsweredIn(raised) == AnsweredIn(modules)
  {
    hide Raised;
    if modules != [] {
      CountsOfRaised(modules[..|modules| - 1], raised[..|raised| - 1]);
      assert ModuleRaised(modules[|modules| - 1], raised[|raised| - 1]);
    }
  }

  lemma {:induction false} TotalsOfRaised(modules: seq<ModuleSummary>, raised: seq<ModuleSummary>)
    requires ModulesRaised(modules, raised)
    ensures AttemptedTotals(raised).0 >= AttemptedTotals(modules).0
    ensures AttemptedTotals(raised).1 == AttemptedTotals(modules).1
    ensures Asked(raised) == Asked(modules) && AnsweredIn(raised) == AnsweredIn(modules)
    ensures Raised(AllTraits(modules), AllTraits(raised))
  {
    hide ModulesRaised, AttemptedTotals, Raised;
    CountsOfRaised(modules, raised);
    TraitsOfRaised(modules, raised);
  }

  /** The same half or a higher one, null exactly when the other is. */
  predicate HalfRaised(a: Option<real>, b: Option<real>) {
    (a.Some? <==> b.Some?) && (a.Some? ==> b.value >= a.value)
  }

  lemma {:induction false} AbilityRaised(modules: seq<ModuleSummary>, raised: seq<ModuleSummary>)
    requires ModulesRaised(modules, raised)
    ensures HalfRaised(AbilityScore(modules), AbilityScore(raised))
  {
    TotalsOfRaised(modules, raised);
    var n := AttemptedTotals(modules).1;
    if n != 0 {
      QuotientGrows(AttemptedTotals(modules).0, AttemptedTotals(raised).0, n as real);
      Round1Monotone(AttemptedTotals(modules).0 / n as real, AttemptedTotals(raised).0 / n as real);
    }
  }

  lemma {:induction false} BlendRaised(a: Option<real>, b: Option<real>, a1: Option<real>, b1: Option<real>)
    requires HalfRaised(a, a1) && HalfRaised(b, b1)
    ensures HalfRaised(BlendScores(a, b), BlendScores(a1, b1))
  {
    match (a, b)
    case (None, None) =>
    case (Some(x), None) => Round1Monotone(x * ABILITY_WEIGHT / ABILITY_WEIGHT, a1.value * ABILITY_WEIGHT / ABILITY_WEIGHT);
    case (None, Some(y)) =>
      Round1Monotone(y * BEHAVIORAL_WEIGHT / BEHAVIORAL_WEIGHT, b1.value * BEHAVIORAL_WEIGHT / BEHAVIORAL_WEIGHT);
    case (Some(x), Some(y)) =>
      Round1Monotone((x * ABILITY_WEIGHT + y * BEHAVIORAL_WEIGHT) / (ABILITY_WEIGHT + BEHAVIORAL_WEIGHT),
                     (a1.value * ABILITY_WEIGHT + b1.value * BEHAVIORAL_WEIGHT) / (ABILITY_WEIGHT + BEHAVIORAL_WEIGHT));
  }

  function Rank(r: Recommendation): nat {
    match r
    case NotRecommended => 0
    case Borderline => 1
    case Recommended => 2
    case StronglyRecommended => 3
  }

  /**
   * With counts and confidences fixed, raising any trait score or attempted module score never lowers a
   * composite, the index, the ability score or the overall score, and never worsens the recommendation -
   * through every rounding, band and the thin-coverage cap.
   */
  lemma {:induction false} ReportIsMonotone(modules: seq<ModuleSummary>, raised: seq<ModuleSummary>)
    requires ModulesRaised(modules, raised)
    ensures var r, s := BuildReport(modules), BuildReport(raised);
      && ProfilesRaised(r.profiles, s.profiles)
      && HalfRaised(r.behavioralScore, s.behavioralScore)
      && HalfRaised(r.abilityScore, s.abilityScore)
      && HalfRaised(r.overallScore, s.overallScore)
      && (r.recommendation.Some? <==> s.recommendation.Some?)
      && (r.recommendation.Some? ==> Rank(s.recommendation.value) >= Rank(r.recommendation.value))
  {
    hide Profiles, BlendScores, AbilityScore, BehavioralIndex;
    TotalsOfRaised(modules, raised);
    IndexRaised(AllTraits(modules), AllTraits(raised));
    AbilityRaised(modules, raised);
    BlendRaised(AbilityScore(modules), BehavioralIndex(Profiles(AllTraits(modules), BEHAVIORAL_PROFILES)),
                AbilityScore(raised), BehavioralIndex(Profiles(AllTraits(raised), BEHAVIORAL_PROFILES)));
  }

  /** Thin coverage caps the recommendation at borderline and changes no lower one. */
  lemma {:induction false} CapOnlyLowers(overall: real, coverage: real, full: real)
    requires coverage < MIN_COVERAGE_RATIO <= full
    ensures var thin, banded := Recommend(Some(overall), coverage).value, Recommend(Some(overall), full).value;
      Rank(thin) == if Rank(banded) <= Rank(Borderline) then Rank(banded) else Rank(Borderline)
  {
  }

  /** "Not recommended" is a matter of the score alone, however little was answered. */
  lemma {:induction false} NotRecommendedIffLow(overall: Option<real>, coverage: real)
    ensures Recommend(overall, coverage) == Some(NotRecommended) <==> overall.Some? && overall.value < BORDERLINE_AT
  {
  }

  lemma {:induction false} NothingPresent(shares: seq<Share>)
    ensures Present([], shares) == []
  {
    if shares != [] {
      NothingPresent(shares[..|shares| - 1]);
    }
  }

  lemma {:induction false} NoTraitsNoProfiles(ds: seq<Definition>)
    ensures Profiles([], ds) == []
  {
    if ds != [] {
      NoTraitsNoProfiles(ds[..|ds| - 1]);
      NothingPresent(ds[|ds| - 1].weights);
    }
  }

  /** A report on one module of a hundred questions: how many were answered, and the score. */
  function OneModule(score: real, answered: nat): seq<ModuleSummary> {
    [ModuleSummary("logic", true, Some(score), answered, 100, [])]
  }

  lemma {:induction false} OneModuleReport(score: real, answered: nat)
    requires 0 < answered <= 100 && OnTenths(score)
    ensures var r := BuildReport(OneModule(score, answered));
      && r.overallScore == Some(score)
      && r.recommendation == Recommend(Some(score), answered as real / 100.0)
  {
    hide Profiles, Round1, OnTenths, BlendScores, Recommend, BehavioralIndex;
    var modules := OneModule(score, answered);
    assert modules[..0] == [];
    assert AttemptedTotals(modules[..0]) == (0.0, 0);
    assert AttemptedTotals(modules) == (score, 1);
    assert AllTraits(modules) == [];
    assert score / 1.0 == score;
    Round1OnTenths(score);
    NoTraitsNoProfiles(BEHAVIORAL_PROFILES);
    NoIndex();
    BlendBetweenHalves(Some(score), None);
    CoverageOfOne(score, answered);
  }

  lemma {:induction false} NoIndex()
    ensures BehavioralIndex([]) == None
  {
  }

  lemma {:induction false} CoverageOfOne(score: real, answered: nat)
    requires answered <= 100
    ensures CoverageRatio(OneModule(score, answered)) == answered as real / 100.0
  {
    var modules := OneModule(score, answered);
    assert modules[..0] == [];
    assert AnsweredIn(modules) == answered && Asked(modules) == 100;
  }

  /** Two answers out of a hundred are never enough for "recommended", but they are for "not recommended". */
  lemma {:induction false} TwoAnswers()
    ensures BuildReport(OneModule(10.0, 2)).recommendation == Some(NotRecommended)
    ensures BuildReport(OneModule(90.0, 2)).recommendation == Some(Borderline)
  {
    assert IsTenths(100, 10.0) && IsTenths(900, 90.0);
    OneModuleReport(10.0, 2);
    OneModuleReport(90.0, 2);
  }

  // ── The figures, in numbers ──────────────────────────────────────────────

  /** With both halves, the overall score is seven tenths ability and three tenths behaviour, to one decimal. */
  lemma {:induction false} SevenToThree(modules: seq<ModuleSummary>)
    ensures var r := BuildReport(modules);
      r.abilityScore.Some? && r.behavioralScore.Some? ==>
        && r.overallScore.Some? && OnTenths(r.overallScore.value)
        && var exact := (7.0 * r.abilityScore.value + 3.0 * r.behavioralScore.value) / 10.0;
           exact - 0.05 <= r.overallScore.value <= exact + 0.05
  {
    hide AbilityScore, BehavioralIndex, Profiles, Round1, OnTenths, Recommend, CoverageRatio;
    var r := BuildReport(modules);
    if r.abilityScore.Some? && r.behavioralScore.Some? {
      var a, b := r.abilityScore.value, r.behavioralScore.value;
      var blend := (a * ABILITY_WEIGHT + b * BEHAVIORAL_WEIGHT) / (ABILITY_WEIGHT + BEHAVIORAL_WEIGHT);
      assert blend == (7.0 * a + 3.0 * b) / 10.0;
      Round1OnTenths(blend);
      Round1Near(blend);
    }
  }

  /** Ability is null exactly when no objective module was attempted. */
  lemma {:induction false} AbilityWhenAttempted(modules: seq<ModuleSummary>)
    ensures AbilityScore(modules).None? <==> forall m :: m in modules ==> !m.objective || m.questionsAnswered == 0
  {
    AttemptedCount(modules);
  }

  lemma {:induction false} AttemptedCount(modules: seq<ModuleSummary>)
    ensures AttemptedTotals(modules).1 == 0
            <==> forall m :: m in modules ==> !m.objective || m.questionsAnswered == 0
  {
    if modules != [] {
      AttemptedCount(modules[..|modules| - 1]);
      assert modules == modules[..|modules| - 1] + [modules[|modules| - 1]];
    }
  }

  lemma {:induction false} TotalsConcat(a: seq<ModuleSummary>, b: seq<ModuleSummary>)
    ensures AttemptedTotals(a + b).0 == AttemptedTotals(a).0 + AttemptedTotals(b).0
    ensures AttemptedTotals(a + b).1 == AttemptedTotals(a).1 + AttemptedTotals(b).1
  {
    if b == [] {
      assert a + b == a;
    } else {
      TotalsConcat(a, b[..|b| - 1]);
      assert (a + b)[..|a + b| - 1] == a + b[..|b| - 1];
    }
  }

  /** Modules that are not objective, or were not attempted, do not touch ability, and order does not matter. */
  lemma {:induction false} AbilityOfAttempted(a: seq<ModuleSummary>, m: ModuleSummary, b: seq<ModuleSummary>)
    requires !m.objective || m.questionsAnswered == 0
    ensures AbilityScore(a + [m] + b) == AbilityScore(a + b) == AbilityScore(b + a)
  {
    hide Round1;
    TotalsConcat(a + [m], b);
    TotalsConcat(a, [m]);
    TotalsConcat(a, b);
    TotalsConcat(b, a);
    assert [m][..0] == [];
  }

  /** Ability lies between the least and the greatest score of the attempted modules, a missing score being 0. */
  lemma {:induction false} AbilityInHull(modules: seq<ModuleSummary>, lo: real, hi: real)
    requires OnTenths(lo) && OnTenths(hi) && AbilityScore(modules).Some?
    requires forall m :: m in modules && m.objective && m.questionsAnswered > 0 ==>
      lo <= (if m.score.Some? then m.score.value else 0.0) <= hi
    ensures lo <= AbilityScore(modules).value <= hi
  {
    hide Round1, OnTenths;
    AttemptedWithin(modules, lo, hi);
    var (sum, n) := AttemptedTotals(modules);
    QuotientBetween(lo, sum, hi, n as real);
    Round1Between(lo, sum / n as real, hi);
  }

  lemma {:induction false} AttemptedWithin(modules: seq<ModuleSummary>, lo: real, hi: real)
    requires forall m :: m in modules && m.objective && m.questionsAnswered > 0 ==>
      lo <= (if m.score.Some? then m.score.value else 0.0) <= hi
    ensures lo * AttemptedTotals(modules).1 as real <= AttemptedTotals(modules).0
            <= hi * AttemptedTotals(modules).1 as real
  {
    if modules != [] {
      var init, last := modules[..|modules| - 1], modules[|modules| - 1];
      AttemptedWithin(init, lo, hi);
      assert last in modules;
      var n := AttemptedTotals(init).1 as real;
      assert lo * (n + 1.0) == lo * n + lo && hi * (n + 1.0) == hi * n + hi;
    }
  }

  /** Eight points of estimate are one point of score, from 600 at 0 to 1400 at 100, to one decimal. */
  lemma {:induction false} NormalisedIs(ability: real)
    ensures ability <= 600.0 ==> NormaliseAbility(ability) == 0.0
    ensures ability >= 1400.0 ==> NormaliseAbility(ability) == 100.0
    ensures 600.0 <= ability <= 1400.0 ==>
      (ability - 600.0) / 8.0 - 0.05 <= NormaliseAbility(ability) <= (ability - 600.0) / 8.0 + 0.05
  {
    hide Round1, OnTenths;
    assert IsTenths(0, 0.0) && IsTenths(1000, 100.0);
    TenthsOf(0, 0.0);
    TenthsOf(1000, 100.0);
    Round1OnTenths(0.0);
    Round1OnTenths(100.0);
    Round1Near((ability - 600.0) / 8.0);
  }

  lemma {:induction false} TenthsOf(k: int, x: real)
    requires IsTenths(k, x)
    ensures OnTenths(x)
  {
  }

  lemma {:induction false} Quotient(k: real, n: real)
    requires n > 0.0
    ensures k / n * n == k
  {
  }

  lemma {:induction false} ThreeFifths(k: real, n: real)
    requires n > 0.0
    ensures k / n >= 0.6 <==> 5.0 * k >= 3.0 * n
  {
    Quotient(k, n);
    if k / n >= 0.6 {
      ProductGrows(0.6, k / n, n);
    }
    if 5.0 * k >= 3.0 * n {
      ProductCancels(0.6, k / n, n);
    }
  }

  lemma {:induction false} AsReals(a: int, b: int)
    ensures 5 * a >= 3 * b <==> 5.0 * a as real >= 3.0 * b as real
  {
    assert (5 * a) as real == 5.0 * a as real && (3 * b) as real == 3.0 * b as real;
  }

  lemma {:induction false} EnoughAnswered(answered: nat, asked: nat)
    requires asked > 0
    ensures answered as real / asked as real >= 0.6 <==> 5 * answered >= 3 * asked
  {
    AsReals(answered, asked);
    ThreeFifths(answered as real, asked as real);
  }

  /** The whole recommendation, by the overall score and by whether three fifths of the questions were answered. */
  lemma {:induction false} RecommendationTable(modules: seq<ModuleSummary>)
    ensures var r := BuildReport(modules); var enough := 5 * AnsweredIn(modules) >= 3 * Asked(modules);
      && (r.recommendation.None? <==> r.overallScore.None?)
      && (r.overallScore.Some? ==>
            var score := r.overallScore.value;
            && (r.recommendation == Some(StronglyRecommended) <==> score >= 75.0 && enough)
            && (r.recommendation == Some(Recommended) <==> 55.0 <= score < 75.0 && enough)
            && (r.recommendation == Some(Borderline) <==> 40.0 <= score < 55.0 || (score >= 55.0 && !enough))
            && (r.recommendation == Some(NotRecommended) <==> score < 40.0))
  {
    hide AbilityScore, BehavioralIndex, Profiles, BlendScores;
    if Asked(modules) > 0 {
      EnoughAnswered(AnsweredIn(modules), Asked(modules));
    }
  }

  /** A finished ability section at 90 and a finished personality section that measured integrity at 30. */
  function TwoSections(): seq<ModuleSummary> {
    [ModuleSummary("logic", true, Some(90.0), 10, 10, []),
     ModuleSummary("personality", false, None, 10, 10, [ReportedTrait("integrity", 30.0, 1.0)])]
  }

  /** The report on it: 90 and 30 make 72, which is recommended. The other way about it would be borderline. */
  lemma {:induction false} TwoSectionsReport()
    ensures var r := BuildReport(TwoSections());
      && r.abilityScore == Some(90.0) && r.behavioralScore == Some(30.0)
      && r.overallScore == Some(72.0) && r.recommendation == Some(Recommended)
    ensures BlendScores(Some(30.0), Some(90.0)) == Some(48.0)
  {
    hide Profiles, Round1, OnTenths, BehavioralIndex, AbilityScore, CoverageRatio;
    var modules := TwoSections();
    var traits := [ReportedTrait("integrity", 30.0, 1.0)];
    TwoSectionsTotals();
    TwoSectionsTraits();
    assert IsTenths(300, 30.0) && IsTenths(720, 72.0) && IsTenths(480, 48.0);
    TenthsOf(300, 30.0);
    TenthsOf(720, 72.0);
    TenthsOf(480, 48.0);
    UniformIndex(traits, 4, 30.0);
    Round1OnTenths(72.0);
    Round1OnTenths(48.0);
    RecommendationTable(modules);
  }

  lemma {:induction false} TwoSectionsTotals()
    ensures AbilityScore(TwoSections()) == Some(90.0) && AnsweredIn(TwoSections()) == Asked(TwoSections()) == 20
  {
    hide Round1, OnTenths;
    var modules := TwoSections();
    assert modules[..1][..0] == [];
    assert AttemptedTotals(modules[..1]) == (90.0, 1);
    assert AttemptedTotals(modules) == (90.0, 1);
    assert AnsweredIn(modules[..1][..0]) == 0 && Asked(modules[..1][..0]) == 0;
    assert modules[..1][0].questionsAnswered == 10 && modules[..1][0].questionCount == 10;
    assert Asked(modules[..1]) == 10 && AnsweredIn(modules[..1]) == 10;
    TenthsOf(900, 90.0);
    Round1OnTenths(90.0);
  }

  lemma {:induction false} TwoSectionsTraits()
    ensures AllTraits(TwoSections()) == [ReportedTrait("integrity", 30.0, 1.0)]
    ensures Present(AllTraits(TwoSections()), BEHAVIORAL_PROFILES[4].weights) != []
  {
    var modules, t := TwoSections(), ReportedTrait("integrity", 30.0, 1.0);
    assert modules[..1][..0] == [];
    assert AllTraits(modules[..1]) == [];
    assert AllTraits(modules) == [t];
    var shares := BEHAVIORAL_PROFILES[4].weights;
    assert Lookup([t], "integrity") == Some(t);
    assert shares[..3][..2][..1] == [shares[0]];
    assert [shares[0]][..0] == [];
    assert Present([t], shares[..3][..2][..1]) == [Entry(t, 0.5)];
    assert |Present([t], shares[..3][..2])| >= 1;
    assert |Present([t], shares[..3])| >= 1;
  }

  // ── The findings, in numbers ─────────────────────────────────────────────

  ghost predicate StrongModule(modules: seq<ModuleSummary>, f: Finding) {
    exists m :: m in modules && m.score.Some? && m.score.value >= 65.0 && m.questionsAnswered >= 3
                && f == ModuleFinding(m.name, m.score.value)
  }

  ghost predicate WeakModule(modules: seq<ModuleSummary>, f: Finding) {
    exists m :: m in modules && m.score.Some? && m.score.value <= 35.0 && m.questionsAnswered >= 3
                && f == ModuleFinding(m.name, m.score.value)
  }

  ghost predicate ThinModule(modules: seq<ModuleSummary>, f: Finding) {
    exists m :: m in modules && 0 < m.questionsAnswered < m.questionCount
                && f == ThinSection(m.name, m.questionsAnswered, m.questionCount)
  }

  ghost predicate StrongTrait(modules: seq<ModuleSummary>, f: Finding) {
    exists m, t :: m in modules && t in m.traits && t.confidence >= 0.8 && t.score >= 65.0
                   && f == TraitFinding(t.key, t.score)
  }

  ghost predicate WeakTrait(modules: seq<ModuleSummary>, f: Finding) {
    exists m, t :: m in modules && t in m.traits && t.confidence >= 0.8 && t.score <= 35.0
                   && f == TraitFinding(t.key, t.score)
  }

  ghost predicate BandedProfile(profiles: seq<ProfileScore>, band: Band, f: Finding) {
    exists p :: p in profiles && p.confidence >= 0.8 && p.band == Some(band) && f == ProfileFinding(p.key, p.score)
  }

  ghost predicate AmongStrong(traits: seq<ReportedTrait>, f: Finding) {
    exists t :: t in traits && t.confidence >= 0.8 && t.score >= 65.0 && f == TraitFinding(t.key, t.score)
  }

  ghost predicate AmongWeak(traits: seq<ReportedTrait>, f: Finding) {
    exists t :: t in traits && t.confidence >= 0.8 && t.score <= 35.0 && f == TraitFinding(t.key, t.score)
  }

  lemma {:induction false} TraitsListed(traits: seq<ReportedTrait>, f: Finding)
    ensures f in TraitStrengths(traits) <==> AmongStrong(traits, f)
    ensures f in TraitWeaknesses(traits) <==> AmongWeak(traits, f)
  {
    if traits != [] {
      TraitsListed(traits[..|traits| - 1], f);
      assert traits == traits[..|traits| - 1] + [traits[|traits| - 1]];
    }
  }

  lemma {:induction false} OneMore(init: seq<ModuleSummary>, m: ModuleSummary, f: Finding)
    ensures var strong := m.score.Some? && m.score.value >= 65.0 && m.questionsAnswered >= 3
                          && f == ModuleFinding(m.name, m.score.value);
      StrongModule(init + [m], f) <==> StrongModule(init, f) || strong
    ensures var weak := m.score.Some? && m.score.value <= 35.0 && m.questionsAnswered >= 3
                        && f == ModuleFinding(m.name, m.score.value);
      WeakModule(init + [m], f) <==> WeakModule(init, f) || weak
    ensures ThinModule(init + [m], f) <==>
      ThinModule(init, f) || (0 < m.questionsAnswered < m.questionCount
                              && f == ThinSection(m.name, m.questionsAnswered, m.questionCount))
  {
    OneMoreMember(init, m);
  }

  lemma {:induction false} OneMoreMember(init: seq<ModuleSummary>, m: ModuleSummary)
    ensures forall x :: x in init + [m] <==> x in init || x == m
  {
  }

  lemma {:induction false} OneMoreTraits(init: seq<ModuleSummary>, m: ModuleSummary, f: Finding)
    ensures StrongTrait(init + [m], f) <==> StrongTrait(init, f) || AmongStrong(m.traits, f)
    ensures WeakTrait(init + [m], f) <==> WeakTrait(init, f) || AmongWeak(m.traits, f)
  {
    OneMoreMember(init, m);
  }

  lemma {:induction false} ProfilesListed(profiles: seq<ProfileScore>, band: Band, f: Finding)
    ensures f in ProfileFindings(profiles, band) <==> BandedProfile(profiles, band, f)
  {
    if profiles != [] {
      ProfilesListed(profiles[..|profiles| - 1], band, f);
      assert profiles == profiles[..|profiles| - 1] + [profiles[|profiles| - 1]];
    }
  }

  lemma {:induction false} NothingListed(f: Finding)
    ensures !StrongModule([], f) && !StrongTrait([], f) && !WeakModule([], f) && !WeakTrait([], f) && !ThinModule([], f)
  {
  }

  lemma {:induction false} StrongListed(modules: seq<ModuleSummary>, f: Finding)
    ensures f in ModuleStrengths(modules) <==> StrongModule(modules, f) || StrongTrait(modules, f)
  {
    hide StrongModule, StrongTrait, AmongStrong, AmongWeak, TraitStrengths;
    if modules == [] {
      NothingListed(f);
    } else {
      var init, m := modules[..|modules| - 1], modules[|modules| - 1];
      assert modules == init + [m];
      StrongListed(init, f);
      TraitsListed(m.traits, f);
      OneMore(init, m, f);
      OneMoreTraits(init, m, f);
    }
  }

  lemma {:induction false} WeakListed(modules: seq<ModuleSummary>, f: Finding)
    ensures f in ModuleWeaknesses(modules) <==>
      WeakModule(modules, f) || WeakTrait(modules, f) || ThinModule(modules, f)
  {
    hide WeakModule, WeakTrait, ThinModule, AmongStrong, AmongWeak, TraitWeaknesses;
    if modules == [] {
      NothingListed(f);
    } else {
      var init, m := modules[..|modules| - 1], modules[|modules| - 1];
      assert modules == init + [m];
      WeakListed(init, f);
      TraitsListed(m.traits, f);
      OneMore(init, m, f);
      OneMoreTraits(init, m, f);
    }
  }

  /** What is listed as a strength: exactly the established modules, traits and composites that are strong. */
  lemma {:induction false} StrengthsExactly(modules: seq<ModuleSummary>, profiles: seq<ProfileScore>, f: Finding)
    ensures f in Strengths(modules, profiles) <==>
      StrongModule(modules, f) || StrongTrait(modules, f) || BandedProfile(profiles, Strong, f)
  {
    StrongListed(modules, f);
    ProfilesListed(profiles, Strong, f);
  }

  /** What is listed as a weakness: exactly those that are weak, and every section begun and not finished. */
  lemma {:induction false} WeaknessesExactly(modules: seq<ModuleSummary>, profiles: seq<ProfileScore>, f: Finding)
    ensures f in Weaknesses(modules, profiles) <==>
      || WeakModule(modules, f) || WeakTrait(modules, f) || ThinModule(modules, f)
      || BandedProfile(profiles, Developing, f)
  {
    WeakListed(modules, f);
    ProfilesListed(profiles, Developing, f);
  }

  // ── Findings have scores ─────────────────────────────────────────────────

  lemma {:induction false} CompositeConfidence(traits: seq<ReportedTrait>, d: Definition)
    ensures var composite := Composite(traits, d);
      composite.Some? && composite.value.confidence >= MIN_FINDING_CONFIDENCE ==>
        composite.value.score.Some? && composite.value.band.Some?
  {
    if TotalWeight(Present(traits, d.weights)) != 0.0 {
      Round2Facts(TotalConfidence(Present(traits, d.weights)) / TotalWeight(Present(traits, d.weights)));
    }
  }

  lemma {:induction false} EstablishedHaveScores(traits: seq<ReportedTrait>, ds: seq<Definition>)
    ensures forall i ::
      (0 <= i < |Profiles(traits, ds)| && Profiles(traits, ds)[i].confidence >= MIN_FINDING_CONFIDENCE) ==>
      Profiles(traits, ds)[i].score.Some?
  {
    if ds != [] {
      EstablishedHaveScores(traits, ds[..|ds| - 1]);
      var last := Composite(traits, ds[|ds| - 1]);
      if last.Some? && last.value.confidence >= MIN_FINDING_CONFIDENCE {
        CompositeConfidence(traits, ds[|ds| - 1]);
      }
    }
  }

  lemma {:induction false} NoProfilesInTraits(traits: seq<ReportedTrait>)
    ensures forall f :: f in TraitStrengths(traits) || f in TraitWeaknesses(traits) ==> f.TraitFinding?
  {
    if traits != [] {
      NoProfilesInTraits(traits[..|traits| - 1]);
    }
  }

  lemma {:induction false} NoProfilesInModules(modules: seq<ModuleSummary>)
    ensures forall f :: f in ModuleStrengths(modules) || f in ModuleWeaknesses(modules) ==> !f.ProfileFinding?
  {
    if modules != [] {
      NoProfilesInModules(modules[..|modules| - 1]);
      NoProfilesInTraits(modules[|modules| - 1].traits);
    }
  }

  lemma {:induction false} ProfileFindingsScored(profiles: seq<ProfileScore>, band: Band)
    requires forall i :: 0 <= i < |profiles| && profiles[i].confidence >= MIN_FINDING_CONFIDENCE ==>
      profiles[i].score.Some?
    ensures forall f :: f in ProfileFindings(profiles, band) ==> f.ProfileFinding? && f.profileScore.Some?
  {
    if profiles != [] {
      ProfileFindingsScored(profiles[..|profiles| - 1], band);
    }
  }

  /**
   * No finding names a composite without a score: the confidence it takes to be named, even after rounding,
   * is above the one it takes to be scored.
   */
  lemma {:induction false} NamedCompositesAreScored(modules: seq<ModuleSummary>)
    ensures var profiles := BuildReport(modules).profiles;
      forall f :: (f in Strengths(modules, profiles) || f in Weaknesses(modules, profiles)) && f.ProfileFinding?
        ==> f.profileScore.Some?
  {
    hide Profiles, ProfileFindings, ModuleStrengths, ModuleWeaknesses;
    var traits := AllTraits(modules);
    EstablishedHaveScores(traits, BEHAVIORAL_PROFILES);
    var profiles := Profiles(traits, BEHAVIORAL_PROFILES);
    ProfileFindingsScored(profiles, Strong);
    ProfileFindingsScored(profiles, Developing);
    NoProfilesInModules(modules);
  }

  // ── The loops ────────────────────────────────────────────────────────────

  /** Blends the halves that exist by their weights. */
  method Blend(ability: Option<real>, behavioral: Option<real>) returns (r: Option<real>)
    ensures r == BlendScores(ability, behavioral)
  {
    var parts: seq<(real, real)> := [];
    if ability.Some? {
      parts := parts + [(ability.value, ABILITY_WEIGHT)];
    }
    if behavioral.Some? {
      parts := parts + [(behavioral.value, BEHAVIORAL_WEIGHT)];
    }
    if parts == [] {
      return None;
    }
    var total, totalWeight := 0.0, 0.0;
    if |parts| == 2 {
      total, totalWeight := parts[0].0 * parts[0].1 + parts[1].0 * parts[1].1, parts[0].1 + parts[1].1;
    } else {
      total, totalWeight := parts[0].0 * parts[0].1, parts[0].1;
    }
    r := Some(Round1(total / totalWeight));
  }

  method CollectStrengths(modules: seq<ModuleSummary>, profiles: seq<ProfileScore>) returns (findings: seq<Finding>)
    ensures findings == Strengths(modules, profiles)
  {
    findings := [];
    for i := 0 to |modules|
      invariant findings == ModuleStrengths(modules[..i])
    {
      assert modules[..i + 1][..i] == modules[..i];
      var m := modules[i];
      if m.score.Some? && m.score.value >= STRONG_SCORE && IsEstablished(m) {
        findings := findings + [ModuleFinding(m.name, m.score.value)];
      }
      findings := findings + TraitStrengths(m.traits);
    }
    assert modules[..|modules|] == modules;
    findings := findings + ProfileFindings(profiles, Strong);
  }

  lemma {:induction false} WeaknessesNone()
    ensures ModuleWeaknesses([]) == []
  {
  }

  lemma {:induction false} WeaknessesNext(modules: seq<ModuleSummary>, i: nat)
    requires i < |modules|
    ensures var m := modules[i];
      ModuleWeaknesses(modules[..i + 1])
      == ModuleWeaknesses(modules[..i])
         + (if m.score.Some? && m.score.value <= WEAK_SCORE && IsEstablished(m)
            then [ModuleFinding(m.name, m.score.value)] else [])
         + TraitWeaknesses(m.traits)
         + (if 0 < m.questionsAnswered < m.questionCount
            then [ThinSection(m.name, m.questionsAnswered, m.questionCount)] else [])
  {
    hide TraitWeaknesses;
    assert modules[..i + 1][..i] == modules[..i];
  }

  method CollectWeaknesses(modules: seq<ModuleSummary>, profiles: seq<ProfileScore>) returns (findings: seq<Finding>)
    ensures findings == Weaknesses(modules, profiles)
  {
    hide TraitWeaknesses, ModuleWeaknesses, ProfileFindings;
    findings := [];
    WeaknessesNone();
    assert modules[..0] == [];
    for i := 0 to |modules|
      invariant findings == ModuleWeaknesses(modules[..i])
    {
      WeaknessesNext(modules, i);
      var m := modules[i];
      if m.score.Some? && m.score.value <= WEAK_SCORE && IsEstablished(m) {
        findings := findings + [ModuleFinding(m.name, m.score.value)];
      }
      findings := findings + TraitWeaknesses(m.traits);
      if 0 < m.questionsAnswered < m.questionCount {
        findings := findings + [ThinSection(m.name, m.questionsAnswered, m.questionCount)];
      }
    }
    assert modules[..|modules|] == modules;
    findings := findings + ProfileFindings(profiles, Developing);
  }
}
