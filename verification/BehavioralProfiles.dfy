/** The behavioural composites: weighted means of the measured traits, withheld where the evidence is thin. */
module BehavioralProfiles {
  import opened Wrappers
  import opened Rounding

  const MIN_TRAIT_CONFIDENCE: real := 0.5
  const BEHAVIORAL_STRONG_AT: real := 65.0
  const BEHAVIORAL_MODERATE_AT: real := 45.0

  type Key = string

  datatype ReportedTrait = ReportedTrait(key: Key, score: real, confidence: real)

  datatype Share = Share(key: Key, weight: real)

  datatype Definition = Definition(key: Key, weights: seq<Share>)

  datatype Band = Strong | Moderate | Developing

  datatype ProfileScore = ProfileScore(key: Key, score: Option<real>, confidence: real, band: Option<Band>)

  const BEHAVIORAL_PROFILES: seq<Definition> := [
    Definition("leadership_readiness", [
      Share("leadership", 0.35), Share("ownership", 0.2), Share("communication", 0.2),
      Share("accountability", 0.15), Share("risk_tolerance", 0.1)]),
    Definition("collaboration", [
      Share("teamwork", 0.35), Share("empathy", 0.3), Share("communication", 0.25), Share("integrity", 0.1)]),
    Definition("reliability", [
      Share("accountability", 0.35), Share("ownership", 0.3), Share("integrity", 0.25), Share("resilience", 0.1)]),
    Definition("resilience_under_pressure", [
      Share("adaptability", 0.4), Share("resilience", 0.35), Share("risk_tolerance", 0.15), Share("ownership", 0.1)]),
    Definition("integrity_judgment", [
      Share("integrity", 0.5), Share("accountability", 0.25), Share("ownership", 0.15), Share("empathy", 0.1)])
  ]

  /** Every share is positive, as all authored ones are. */
  ghost predicate PositiveShares(shares: seq<Share>) {
    forall i :: 0 <= i < |shares| ==> shares[i].weight > 0.0
  }

  lemma {:induction false} AuthoredSharesPositive(d: nat)
    requires d < |BEHAVIORAL_PROFILES|
    ensures PositiveShares(BEHAVIORAL_PROFILES[d].weights)
  {
  }

  // ── Composites ───────────────────────────────────────────────────────────

  /** A trait that was measured, with its share of a composite. */
  datatype Entry = Entry(trait_: ReportedTrait, weight: real)

  /** The trait listed under a key; the last one wins, as in a map built from the list. */
  function Lookup(traits: seq<ReportedTrait>, key: Key): Option<ReportedTrait> {
    if traits == [] then None
    else if traits[|traits| - 1].key == key then Some(traits[|traits| - 1])
    else Lookup(traits[..|traits| - 1], key)
  }

  /** The measured traits of a composite: listed, and with some confidence behind them. */
  function Present(traits: seq<ReportedTrait>, shares: seq<Share>): seq<Entry> {
    if shares == [] then []
    else
      var share := shares[|shares| - 1];
      var found := Lookup(traits, share.key);
      Present(traits, shares[..|shares| - 1])
      + (if found.Some? && found.value.confidence > 0.0 then [Entry(found.value, share.weight)] else [])
  }

  function TotalWeight(present: seq<Entry>): real {
    if present == [] then 0.0 else TotalWeight(present[..|present| - 1]) + present[|present| - 1].weight
  }

  function TotalScore(present: seq<Entry>): real {
    if present == [] then 0.0
    else TotalScore(present[..|present| - 1]) + present[|present| - 1].trait_.score * present[|present| - 1].weight
  }

  function TotalConfidence(present: seq<Entry>): real {
    if present == [] then 0.0
    else TotalConfidence(present[..|present| - 1])
         + present[|present| - 1].trait_.confidence * present[|present| - 1].weight
  }

  function BandFor(score: real): Band {
    if score >= BEHAVIORAL_STRONG_AT then Strong
    else if score >= BEHAVIORAL_MODERATE_AT then Moderate
    else Developing
  }

  /** One composite, or nothing when no trait that bears on it was measured. */
  function Composite(traits: seq<ReportedTrait>, d: Definition): Option<ProfileScore> {
    var present := Present(traits, d.weights);
    var weight := TotalWeight(present);
    if weight == 0.0 then None
    else
      var score := TotalScore(present) / weight;
      var confidence := TotalConfidence(present) / weight;
      var reportable := confidence >= MIN_TRAIT_CONFIDENCE;
      Some(ProfileScore(d.key,
                        if reportable then Some(Round1(score)) else None,
                        Round2(confidence),
                        if reportable then Some(BandFor(score)) else None))
  }

  function Profiles(traits: seq<ReportedTrait>, ds: seq<Definition>): seq<ProfileScore> {
    if ds == [] then []
    else
      var last := Composite(traits, ds[|ds| - 1]);
      Profiles(traits, ds[..|ds| - 1]) + (if last.Some? then [last.value] else [])
  }

  /** The sum and the number of the reported composites. */
  function Reported(profiles: seq<ProfileScore>): (sumAndCount: (real, nat)) {
    if profiles == [] then (0.0, 0)
    else
      var (sum, count) := Reported(profiles[..|profiles| - 1]);
      var last := profiles[|profiles| - 1];
      if last.score.Some? then (sum + last.score.value, count + 1) else (sum, count)
  }

  /** The behavioural index: the mean of the reported composites, or nothing when there are none. */
  function BehavioralIndex(profiles: seq<ProfileScore>): Option<real> {
    var (sum, count) := Reported(profiles);
    if count == 0 then None else Some(Round1(sum / count as real))
  }

  // ── Arithmetic ───────────────────────────────────────────────────────────

  lemma {:induction false} ProductGrows(x: real, y: real, w: real)
    requires x <= y && w >= 0.0
    ensures x * w <= y * w
  {
  }

  lemma {:induction false} ProductCancels(x: real, y: real, w: real)
    requires x * w <= y * w && w > 0.0
    ensures x <= y
  {
  }

  lemma {:induction false} QuotientGrows(x: real, y: real, w: real)
    requires x <= y && w > 0.0
    ensures x / w <= y / w
  {
    assert x / w * w == x && y / w * w == y;
    ProductCancels(x / w, y / w, w);
  }

  lemma {:induction false} QuotientBetween(lo: real, x: real, hi: real, w: real)
    requires lo * w <= x <= hi * w && w > 0.0
    ensures lo <= x / w <= hi
  {
    QuotientGrows(lo * w, x, w);
    QuotientGrows(x, hi * w, w);
    assert lo * w / w == lo && hi * w / w == hi;
  }

  // ── Hull ─────────────────────────────────────────────────────────────────

  ghost predicate PositiveEntries(present: seq<Entry>) {
    forall i :: 0 <= i < |present| ==> present[i].weight > 0.0
  }

  /** Bounds on every measured trait of a composite. */
  ghost predicate ScoresWithin(present: seq<Entry>, lo: real, hi: real) {
    forall i :: 0 <= i < |present| ==> lo <= present[i].trait_.score <= hi
  }

  lemma {:induction false} BoundsAdd(lo: real, weight: real, total: real, hi: real, score: real, w: real)
    requires lo * weight <= total <= hi * weight && lo <= score <= hi && w > 0.0
    ensures lo * (weight + w) <= total + score * w <= hi * (weight + w)
  {
    ProductGrows(lo, score, w);
    ProductGrows(score, hi, w);
    assert lo * (weight + w) == lo * weight + lo * w;
    assert hi * (weight + w) == hi * weight + hi * w;
  }

  lemma {:induction false} TotalsBounded(present: seq<Entry>, lo: real, hi: real)
    requires PositiveEntries(present) && ScoresWithin(present, lo, hi)
    ensures lo * TotalWeight(present) <= TotalScore(present) <= hi * TotalWeight(present)
    ensures TotalWeight(present) >= 0.0 && (present != [] ==> TotalWeight(present) > 0.0)
  {
    if present != [] {
      var init, last := present[..|present| - 1], present[|present| - 1];
      TotalsBounded(init, lo, hi);
      assert lo <= last.trait_.score <= hi && last.weight > 0.0;
      BoundsAdd(lo, TotalWeight(init), TotalScore(init), hi, last.trait_.score, last.weight);
    }
  }

  lemma {:induction false} PresentPositive(traits: seq<ReportedTrait>, shares: seq<Share>)
    requires PositiveShares(shares)
    ensures PositiveEntries(Present(traits, shares))
  {
    if shares != [] {
      PresentPositive(traits, shares[..|shares| - 1]);
    }
  }

  lemma {:induction false} Least(present: seq<Entry>) returns (i: nat)
    requires present != []
    ensures i < |present| && forall j :: 0 <= j < |present| ==> present[i].trait_.score <= present[j].trait_.score
  {
    i := 0;
    for k := 1 to |present|
      invariant i < k
      invariant forall j :: 0 <= j < k ==> present[i].trait_.score <= present[j].trait_.score
    {
      if present[k].trait_.score < present[i].trait_.score {
        i := k;
      }
    }
  }

  lemma {:induction false} Greatest(present: seq<Entry>) returns (i: nat)
    requires present != []
    ensures i < |present| && forall j :: 0 <= j < |present| ==> present[j].trait_.score <= present[i].trait_.score
  {
    i := 0;
    for k := 1 to |present|
      invariant i < k
      invariant forall j :: 0 <= j < k ==> present[j].trait_.score <= present[i].trait_.score
    {
      if present[k].trait_.score > present[i].trait_.score {
        i := k;
      }
    }
  }

  /** Entries `i` and `j` are the extremes of a composite's traits, and `score` lies between them as rounded. */
  ghost predicate Brackets(present: seq<Entry>, i: nat, j: nat, score: real) {
    && i < |present| && j < |present|
    && ScoresWithin(present, present[i].trait_.score, present[j].trait_.score)
    && Round1(present[i].trait_.score) <= score <= Round1(present[j].trait_.score)
    && (OnTenths(present[i].trait_.score) && OnTenths(present[j].trait_.score) ==>
          present[i].trait_.score <= score <= present[j].trait_.score)
  }

  /**
   * A reported composite lies between the least and the greatest of its own measured traits, as they would
   * be rounded. Traits are reported at one decimal, where that rounding changes nothing.
   */
  lemma {:induction false} CompositeInHull(traits: seq<ReportedTrait>, d: Definition)
    requires PositiveShares(d.weights)
    requires Composite(traits, d).Some? && Composite(traits, d).value.score.Some?
    ensures exists i, j :: Brackets(Present(traits, d.weights), i, j, Composite(traits, d).value.score.value)
  {
    hide Round1, OnTenths, Present, TotalScore, TotalWeight, TotalConfidence, Composite, IsTenths;
    var present := Present(traits, d.weights);
    PresentPositive(traits, d.weights);
    CompositeScore(traits, d);
    var i := Least(present);
    var j := Greatest(present);
    var lo, hi := present[i].trait_.score, present[j].trait_.score;
    TotalsBounded(present, lo, hi);
    RoundedQuotient(lo, TotalScore(present), hi, TotalWeight(present));
    assert Brackets(present, i, j, Composite(traits, d).value.score.value);
  }

  lemma {:induction false} CompositeScore(traits: seq<ReportedTrait>, d: Definition)
    requires Composite(traits, d).Some? && Composite(traits, d).value.score.Some?
    ensures var present := Present(traits, d.weights);
      && present != []
      && Composite(traits, d).value.score.value == Round1(TotalScore(present) / TotalWeight(present))
  {
  }

  lemma {:induction false} RoundedQuotient(lo: real, total: real, hi: real, w: real)
    requires lo * w <= total <= hi * w && w > 0.0
    ensures Round1(lo) <= Round1(total / w) <= Round1(hi)
    ensures OnTenths(lo) && OnTenths(hi) ==> lo <= Round1(total / w) <= hi
  {
    QuotientBetween(lo, total, hi, w);
    Round1Monotone(lo, total / w);
    Round1Monotone(total / w, hi);
    Round1OnTenths(lo);
    Round1OnTenths(hi);
  }

  /** With trait scores in 0..100, a reported composite is in 0..100. */
  lemma {:induction false} CompositeInRange(traits: seq<ReportedTrait>, d: Definition)
    requires PositiveShares(d.weights)
    requires ScoresWithin(Present(traits, d.weights), 0.0, 100.0)
    ensures var composite := Composite(traits, d);
      composite.Some? && composite.value.score.Some? ==> 0.0 <= composite.value.score.value <= 100.0
  {
    hide Composite, Present, TotalScore, TotalWeight;
    var composite := Composite(traits, d);
    if composite.Some? && composite.value.score.Some? {
      var present := Present(traits, d.weights);
      PresentPositive(traits, d.weights);
      CompositeScore(traits, d);
      TotalsBounded(present, 0.0, 100.0);
      QuotientBetween(0.0, TotalScore(present), 100.0, TotalWeight(present));
      assert IsTenths(0, 0.0) && IsTenths(1000, 100.0);
      Round1Between(0.0, TotalScore(present) / TotalWeight(present), 100.0);
    }
  }

  /** Off the one-decimal grid the hull is not kept: rounding alone can leave it. */
  lemma {:induction false} HullNeedsTenths()
    ensures exists traits ::
      var present := Present(traits, [Share("t", 1.0)]);
      var composite := Composite(traits, Definition("p", [Share("t", 1.0)]));
      composite.Some? && composite.value.score.Some?
      && forall i :: 0 <= i < |present| ==> composite.value.score.value < present[i].trait_.score
  {
    var t := ReportedTrait("t", 50.04, 1.0);
    var traits := [t];
    var shares := [Share("t", 1.0)];
    assert shares[..0] == [];
    assert Lookup(traits, "t") == Some(t);
    var present := Present(traits, shares);
    assert Present(traits, shares[..0]) == [];
    assert shares[|shares| - 1] == Share("t", 1.0);
    assert present == [Entry(t, 1.0)];
    TotalsAppend([], Entry(t, 1.0));
    assert present == [] + [Entry(t, 1.0)];
    assert TotalWeight(present) == 1.0 && TotalScore(present) == 50.04 && TotalConfidence(present) == 1.0;
    RoundIntIs(50.04 * 10.0, 500);
    assert Round1(50.04) == 50.0;
  }

  lemma {:induction false} RoundIntIs(x: real, k: int)
    requires k as real - 0.5 <= x < k as real + 0.5
    ensures RoundInt(x) == k
  {
    var r := RoundInt(x);
    assert r > k ==> r as real >= (k + 1) as real;
    assert r < k ==> (r + 1) as real <= k as real;
  }

  // ── What a composite rests on ────────────────────────────────────────────

  /** A trait nobody has evidence for changes no composite. */
  lemma {:induction false} UnmeasuredDropped(traits: seq<ReportedTrait>, t: ReportedTrait, d: Definition)
    requires t.confidence <= 0.0 && forall u :: u in traits ==> u.key != t.key
    ensures Composite(traits + [t], d) == Composite(traits, d)
  {
    hide TotalWeight, TotalScore, TotalConfidence;
    PresentWithout(traits, t, d.weights);
  }

  lemma {:induction false} PresentWithout(traits: seq<ReportedTrait>, t: ReportedTrait, shares: seq<Share>)
    requires t.confidence <= 0.0 && forall u :: u in traits ==> u.key != t.key
    ensures Present(traits + [t], shares) == Present(traits, shares)
  {
    if shares != [] {
      PresentWithout(traits, t, shares[..|shares| - 1]);
      LookupWithout(traits, t, shares[|shares| - 1].key);
    }
  }

  lemma {:induction false} LookupWithout(traits: seq<ReportedTrait>, t: ReportedTrait, key: Key)
    requires forall u :: u in traits ==> u.key != t.key
    ensures Lookup(traits + [t], key) == if key == t.key then Some(t) else Lookup(traits, key)
    ensures key == t.key ==> Lookup(traits, key).None?
  {
    assert (traits + [t])[..|traits|] == traits;
    LookupFinds(traits, key);
  }

  lemma {:induction false} LookupFinds(traits: seq<ReportedTrait>, key: Key)
    ensures Lookup(traits, key).Some? ==> Lookup(traits, key).value in traits && Lookup(traits, key).value.key == key
    ensures Lookup(traits, key).None? ==> forall t :: t in traits ==> t.key != key
  {
    if traits != [] && traits[|traits| - 1].key != key {
      LookupFinds(traits[..|traits| - 1], key);
    }
  }

  /** Bounds on the confidence behind a composite's traits. */
  ghost predicate ConfidenceWithin(present: seq<Entry>, lo: real, hi: real) {
    forall i :: 0 <= i < |present| ==> lo <= present[i].trait_.confidence <= hi
  }

  lemma {:induction false} ConfidenceBounded(present: seq<Entry>, lo: real, hi: real)
    requires PositiveEntries(present) && ConfidenceWithin(present, lo, hi)
    ensures lo * TotalWeight(present) <= TotalConfidence(present) <= hi * TotalWeight(present)
    ensures TotalWeight(present) >= 0.0 && (present != [] ==> TotalWeight(present) > 0.0)
  {
    if present != [] {
      var init, last := present[..|present| - 1], present[|present| - 1];
      ConfidenceBounded(init, lo, hi);
      assert lo <= last.trait_.confidence <= hi && last.weight > 0.0;
      BoundsAdd(lo, TotalWeight(init), TotalConfidence(init), hi, last.trait_.confidence, last.weight);
    }
  }

  /**
   * A composite is listed exactly when one of its traits was measured; it is scored when all of those have a
   * confidence of a half at least, and not when all have less.
   */
  lemma {:induction false} ScoredByConfidence(traits: seq<ReportedTrait>, d: Definition, lo: real, hi: real)
    requires PositiveShares(d.weights) && ConfidenceWithin(Present(traits, d.weights), lo, hi)
    ensures Composite(traits, d).Some? <==> Present(traits, d.weights) != []
    ensures Composite(traits, d).Some? && lo >= 0.5 ==> Composite(traits, d).value.score.Some?
    ensures Composite(traits, d).Some? && hi < 0.5 ==> Composite(traits, d).value.score.None?
  {
    hide Round1, Round2, Present;
    var present := Present(traits, d.weights);
    PresentPositive(traits, d.weights);
    ConfidenceBounded(present, lo, hi);
    if present != [] {
      QuotientBetween(lo, TotalConfidence(present), hi, TotalWeight(present));
    }
  }

  /** The band agrees with the score shown, up to the rounding of a score that is shown at a threshold. */
  lemma {:induction false} BandAgreesWithScore(traits: seq<ReportedTrait>, d: Definition)
    requires Composite(traits, d).Some? && Composite(traits, d).value.score.Some?
    ensures var p := Composite(traits, d).value;
      && p.band.Some?
      && (p.score.value > 65.0 ==> p.band == Some(Strong)) && (p.band == Some(Strong) ==> p.score.value >= 65.0)
      && (p.score.value < 45.0 ==> p.band == Some(Developing)) && (p.band == Some(Developing) ==> p.score.value <= 45.0)
  {
    hide Round1, Round2, OnTenths, Present, TotalScore, TotalConfidence, TotalWeight;
    var score := TotalScore(Present(traits, d.weights)) / TotalWeight(Present(traits, d.weights));
    Thresholds();
    if score <= 65.0 { Round1Monotone(score, 65.0); } else { Round1Monotone(65.0, score); }
    if score <= 45.0 { Round1Monotone(score, 45.0); } else { Round1Monotone(45.0, score); }
  }

  lemma {:induction false} Thresholds()
    ensures Round1(65.0) == 65.0 && Round1(45.0) == 45.0
  {
    assert IsTenths(650, 65.0) && IsTenths(450, 45.0);
    Round1OnTenths(65.0);
    Round1OnTenths(45.0);
  }

  /** When every measured trait has the same one-decimal score with full confidence, so has every composite. */
  lemma {:induction false} UniformComposite(traits: seq<ReportedTrait>, d: Definition, x: real)
    requires OnTenths(x) && PositiveShares(d.weights)
    requires forall t :: t in traits ==> t.score == x && t.confidence == 1.0
    ensures Composite(traits, d).Some? <==> Present(traits, d.weights) != []
    ensures Composite(traits, d).Some? ==> Composite(traits, d).value.score == Some(x)
  {
    hide Composite, OnTenths, Round1, Brackets;
    var present := Present(traits, d.weights);
    PresentFrom(traits, d.weights);
    ScoredByConfidence(traits, d, 1.0, 1.0);
    if Composite(traits, d).Some? {
      CompositeInHull(traits, d);
      var i, j :| Brackets(present, i, j, Composite(traits, d).value.score.value);
      BracketsUniform(present, i, j, Composite(traits, d).value.score.value, x);
    }
  }

  lemma {:induction false} BracketsUniform(present: seq<Entry>, i: nat, j: nat, score: real, x: real)
    requires Brackets(present, i, j, score) && OnTenths(x)
    requires forall k :: 0 <= k < |present| ==> present[k].trait_.score == x
    ensures score == x
  {
  }

  lemma {:induction false} PresentFrom(traits: seq<ReportedTrait>, shares: seq<Share>)
    ensures forall i :: 0 <= i < |Present(traits, shares)| ==> Present(traits, shares)[i].trait_ in traits
  {
    if shares != [] {
      PresentFrom(traits, shares[..|shares| - 1]);
      LookupFinds(traits, shares[|shares| - 1].key);
    }
  }

  lemma {:induction false} UniformProfiles(traits: seq<ReportedTrait>, ds: seq<Definition>, x: real)
    requires OnTenths(x) && PositiveDefinitions(ds)
    requires forall t :: t in traits ==> t.score == x && t.confidence == 1.0
    ensures forall p :: p in Profiles(traits, ds) ==> p.score == Some(x)
    ensures forall d :: d in ds && Present(traits, d.weights) != [] ==> Profiles(traits, ds) != []
  {
    hide Composite, OnTenths, Present;
    if ds != [] {
      var init, d := ds[..|ds| - 1], ds[|ds| - 1];
      UniformProfiles(traits, init, x);
      UniformComposite(traits, d, x);
      assert ds == init + [d];
    }
  }

  lemma {:induction false} ReportedUniform(profiles: seq<ProfileScore>, x: real)
    requires forall p :: p in profiles ==> p.score == Some(x)
    ensures Reported(profiles).1 == |profiles|
    ensures Reported(profiles).0 == x * |profiles| as real
  {
    if profiles != [] {
      var init, last := profiles[..|profiles| - 1], profiles[|profiles| - 1];
      ReportedUniform(init, x);
      assert last in profiles;
      MoreOf(x, |init|);
    }
  }

  lemma {:induction false} MoreOf(x: real, n: nat)
    ensures x * (n + 1) as real == x * n as real + x
  {
  }

  lemma {:induction false} MeanOfSame(x: real, n: nat)
    requires n > 0
    ensures x * n as real / n as real == x
  {
  }

  /** And so has the index, as long as some composite rests on one of the traits. */
  lemma {:induction false} UniformIndex(traits: seq<ReportedTrait>, d: nat, x: real)
    requires OnTenths(x) && d < |BEHAVIORAL_PROFILES| && Present(traits, BEHAVIORAL_PROFILES[d].weights) != []
    requires forall t :: t in traits ==> t.score == x && t.confidence == 1.0
    ensures BehavioralIndex(Profiles(traits, BEHAVIORAL_PROFILES)) == Some(x)
  {
    hide Composite, OnTenths, Present, Profiles, Reported, Round1, PositiveShares;
    forall i | 0 <= i < |BEHAVIORAL_PROFILES|
      ensures PositiveShares(BEHAVIORAL_PROFILES[i].weights)
    {
      AuthoredSharesPositive(i);
    }
    UniformProfiles(traits, BEHAVIORAL_PROFILES, x);
    var profiles := Profiles(traits, BEHAVIORAL_PROFILES);
    assert BEHAVIORAL_PROFILES[d] in BEHAVIORAL_PROFILES;
    ReportedUniform(profiles, x);
    IndexOf(profiles, x);
  }

  lemma {:induction false} IndexOf(profiles: seq<ProfileScore>, x: real)
    requires profiles != [] && OnTenths(x)
    requires Reported(profiles).0 == x * |profiles| as real && Reported(profiles).1 == |profiles|
    ensures BehavioralIndex(profiles) == Some(x)
  {
    hide Reported, Round1, OnTenths;
    MeanOfSame(x, |profiles|);
    assert Reported(profiles).0 / Reported(profiles).1 as real == x;
    Round1OnTenths(x);
  }

  /** Two measured traits weigh in by their own shares: 100 at a share of 0.35 and 0 at 0.2 make 63.6. */
  lemma {:induction false} WeighedByShare()
    ensures var p := Composite([ReportedTrait("a", 100.0, 1.0), ReportedTrait("b", 0.0, 1.0)],
                               Definition("p", [Share("a", 0.35), Share("b", 0.2)]));
      p.Some? && p.value.score == Some(63.6)
  {
    hide Round1, Round2, Lookup, Present, TotalWeight, TotalScore, TotalConfidence;
    var a, b := ReportedTrait("a", 100.0, 1.0), ReportedTrait("b", 0.0, 1.0);
    var shares := [Share("a", 0.35), Share("b", 0.2)];
    TwoPresent(a, b, shares);
    assert [Entry(a, 0.35)] == [] + [Entry(a, 0.35)];
    TotalsAppend([], Entry(a, 0.35));
    TotalsAppend([Entry(a, 0.35)], Entry(b, 0.2));
    NoTotals();
    ShareExample(35.0 / 0.55);
  }

  lemma {:induction false} NoTotals()
    ensures TotalWeight([]) == 0.0 && TotalScore([]) == 0.0 && TotalConfidence([]) == 0.0
  {
  }

  lemma {:induction false} TwoPresent(a: ReportedTrait, b: ReportedTrait, shares: seq<Share>)
    requires a.key != b.key && a.confidence > 0.0 && b.confidence > 0.0
    requires |shares| == 2 && shares[0].key == a.key && shares[1].key == b.key
    ensures Present([a, b], shares) == [Entry(a, shares[0].weight)] + [Entry(b, shares[1].weight)]
  {
    hide Present;
    assert [a, b][..1] == [a];
    assert shares[..1] == [shares[0]] && shares[..1][..0] == [];
    NothingToTotal([a, b]);
    PresentNext([a, b], shares);
    PresentNext([a, b], shares[..1]);
  }

  lemma {:induction false} ShareExample(score: real)
    requires score * 0.55 == 35.0
    ensures Round1(score) == 63.6
  {
    RoundIntIs(score * 10.0, 636);
  }

  // ── Monotonicity ─────────────────────────────────────────────────────────

  /** The same traits with the same confidence, and no lower a score. */
  ghost predicate Raised(traits: seq<ReportedTrait>, raised: seq<ReportedTrait>) {
    && |raised| == |traits|
    && forall i :: 0 <= i < |traits| ==>
         && raised[i].key == traits[i].key && raised[i].confidence == traits[i].confidence
         && raised[i].score >= traits[i].score
  }

  lemma {:induction false} LookupRaised(traits: seq<ReportedTrait>, raised: seq<ReportedTrait>, key: Key)
    requires Raised(traits, raised)
    ensures var a, b := Lookup(traits, key), Lookup(raised, key);
      && (a.Some? <==> b.Some?)
      && (a.Some? ==> b.value.confidence == a.value.confidence && b.value.score >= a.value.score)
  {
    if traits != [] && traits[|traits| - 1].key != key {
      LookupRaised(traits[..|traits| - 1], raised[..|raised| - 1], key);
    }
  }

  lemma {:induction false} PresentNext(traits: seq<ReportedTrait>, shares: seq<Share>)
    requires shares != []
    ensures var found := Lookup(traits, shares[|shares| - 1].key);
      Present(traits, shares)
      == if found.Some? && found.value.confidence > 0.0
         then Present(traits, shares[..|shares| - 1]) + [Entry(found.value, shares[|shares| - 1].weight)]
         else Present(traits, shares[..|shares| - 1])
  {
  }

  lemma {:induction false} TotalsRaised(traits: seq<ReportedTrait>, raised: seq<ReportedTrait>, shares: seq<Share>)
    requires Raised(traits, raised) && PositiveShares(shares)
    ensures var p, q := Present(traits, shares), Present(raised, shares);
      && TotalWeight(q) == TotalWeight(p) && TotalConfidence(q) == TotalConfidence(p)
      && TotalScore(q) >= TotalScore(p)
  {
    hide TotalScore, TotalWeight, TotalConfidence, Present, Lookup, Raised;
    if shares == [] {
      NothingToTotal(traits);
      NothingToTotal(raised);
    } else {
      var init, share := shares[..|shares| - 1], shares[|shares| - 1];
      TotalsRaised(traits, raised, init);
      LookupRaised(traits, raised, share.key);
      PresentNext(traits, shares);
      PresentNext(raised, shares);
      var a, b := Lookup(traits, share.key), Lookup(raised, share.key);
      if a.Some? && a.value.confidence > 0.0 {
        TotalsAppend(Present(traits, init), Entry(a.value, share.weight));
        TotalsAppend(Present(raised, init), Entry(b.value, share.weight));
        SumsGrow(TotalScore(Present(traits, init)), TotalScore(Present(raised, init)),
                 a.value.score, b.value.score, share.weight);
      }
    }
  }

  lemma {:induction false} NothingToTotal(traits: seq<ReportedTrait>)
    ensures Present(traits, []) == []
  {
  }

  lemma {:induction false} SumsGrow(t: real, u: real, x: real, y: real, w: real)
    requires t <= u && x <= y && w >= 0.0
    ensures t + x * w <= u + y * w
  {
    ProductGrows(x, y, w);
    AddBoth(t, u, x * w, y * w);
  }

  lemma {:induction false} AddBoth(t: real, u: real, x: real, y: real)
    requires t <= u && x <= y
    ensures t + x <= u + y
  {
  }

  lemma {:induction false} TotalsAppend(present: seq<Entry>, e: Entry)
    ensures TotalWeight(present + [e]) == TotalWeight(present) + e.weight
    ensures TotalScore(present + [e]) == TotalScore(present) + e.trait_.score * e.weight
    ensures TotalConfidence(present + [e]) == TotalConfidence(present) + e.trait_.confidence * e.weight
  {
    assert (present + [e])[..|present|] == present;
  }

  /** The same composites with the same confidence, the same ones reported, and no lower a score or band. */
  ghost predicate ProfilesRaised(profiles: seq<ProfileScore>, raised: seq<ProfileScore>) {
    && |raised| == |profiles|
    && forall i :: 0 <= i < |profiles| ==> ProfileRaised(profiles[i], raised[i])
  }

  function BandRank(b: Band): nat {
    match b case Strong => 2 case Moderate => 1 case Developing => 0
  }

  predicate ProfileRaised(p: ProfileScore, q: ProfileScore) {
    && q.key == p.key && q.confidence == p.confidence && (q.score.Some? <==> p.score.Some?)
    && (p.score.Some? ==> q.score.value >= p.score.value)
    && (p.band.Some? <==> p.score.Some?) && (q.band.Some? <==> q.score.Some?)
    && (p.band.Some? ==> BandRank(q.band.value) >= BandRank(p.band.value))
  }

  lemma {:induction false} CompositeRaised(traits: seq<ReportedTrait>, raised: seq<ReportedTrait>, d: Definition)
    requires Raised(traits, raised) && PositiveShares(d.weights)
    ensures var a, b := Composite(traits, d), Composite(raised, d);
      (a.Some? <==> b.Some?) && (a.Some? ==> ProfileRaised(a.value, b.value))
  {
    TotalsRaised(traits, raised, d.weights);
    PresentPositive(traits, d.weights);
    var p, q := Present(traits, d.weights), Present(raised, d.weights);
    var w := TotalWeight(p);
    if w != 0.0 {
      WeightNotNegative(p);
      QuotientGrows(TotalScore(p), TotalScore(q), w);
      Round1Monotone(TotalScore(p) / w, TotalScore(q) / w);
    }
  }

  lemma {:induction false} WeightNotNegative(present: seq<Entry>)
    requires PositiveEntries(present)
    ensures TotalWeight(present) >= 0.0
  {
    if present != [] {
      WeightNotNegative(present[..|present| - 1]);
    }
  }

  ghost predicate PositiveDefinitions(ds: seq<Definition>) {
    forall i :: 0 <= i < |ds| ==> PositiveShares(ds[i].weights)
  }

  lemma {:induction false} AllRaised(traits: seq<ReportedTrait>, raised: seq<ReportedTrait>, ds: seq<Definition>)
    requires Raised(traits, raised) && PositiveDefinitions(ds)
    ensures ProfilesRaised(Profiles(traits, ds), Profiles(raised, ds))
  {
    if ds != [] {
      AllRaised(traits, raised, ds[..|ds| - 1]);
      CompositeRaised(traits, raised, ds[|ds| - 1]);
    }
  }

  lemma {:induction false} ReportedRaised(profiles: seq<ProfileScore>, raised: seq<ProfileScore>)
    requires ProfilesRaised(profiles, raised)
    ensures Reported(raised).0 >= Reported(profiles).0 && Reported(raised).1 == Reported(profiles).1
  {
    if profiles != [] {
      ReportedRaised(profiles[..|profiles| - 1], raised[..|raised| - 1]);
      assert ProfileRaised(profiles[|profiles| - 1], raised[|raised| - 1]);
    }
  }

  /** Raising trait scores never lowers a composite, its band or the index, and changes none of them to or from null. */
  lemma {:induction false} IndexRaised(traits: seq<ReportedTrait>, raised: seq<ReportedTrait>)
    requires Raised(traits, raised)
    ensures var p, q := Profiles(traits, BEHAVIORAL_PROFILES), Profiles(raised, BEHAVIORAL_PROFILES);
      && ProfilesRaised(p, q)
      && (BehavioralIndex(p).Some? <==> BehavioralIndex(q).Some?)
      && (BehavioralIndex(p).Some? ==> BehavioralIndex(q).value >= BehavioralIndex(p).value)
  {
    var p, q := Profiles(traits, BEHAVIORAL_PROFILES), Profiles(raised, BEHAVIORAL_PROFILES);
    forall d | 0 <= d < |BEHAVIORAL_PROFILES|
      ensures PositiveShares(BEHAVIORAL_PROFILES[d].weights)
    {
      AuthoredSharesPositive(d);
    }
    AllRaised(traits, raised, BEHAVIORAL_PROFILES);
    ReportedRaised(p, q);
    var n := Reported(p).1;
    if n != 0 {
      QuotientGrows(Reported(p).0, Reported(q).0, n as real);
      Round1Monotone(Reported(p).0 / n as real, Reported(q).0 / n as real);
    }
  }

  // ── The index stays between its composites ───────────────────────────────

  lemma {:induction false} ReportedBounded(profiles: seq<ProfileScore>, lo: real, hi: real)
    requires forall i :: 0 <= i < |profiles| && profiles[i].score.Some? ==> lo <= profiles[i].score.value <= hi
    ensures lo * Reported(profiles).1 as real <= Reported(profiles).0 <= hi * Reported(profiles).1 as real
  {
    if profiles != [] {
      var init := profiles[..|profiles| - 1];
      ReportedBounded(init, lo, hi);
      var n := Reported(init).1 as real;
      assert lo * (n + 1.0) == lo * n + lo && hi * (n + 1.0) == hi * n + hi;
    }
  }

  /** With every reported composite in 0..100, the index is in 0..100. */
  lemma {:induction false} IndexInRange(profiles: seq<ProfileScore>)
    requires forall i :: 0 <= i < |profiles| && profiles[i].score.Some? ==> 0.0 <= profiles[i].score.value <= 100.0
    requires BehavioralIndex(profiles).Some?
    ensures 0.0 <= BehavioralIndex(profiles).value <= 100.0 && OnTenths(BehavioralIndex(profiles).value)
  {
    ReportedBounded(profiles, 0.0, 100.0);
    var (sum, n) := Reported(profiles);
    QuotientBetween(0.0, sum, 100.0, n as real);
    assert IsTenths(0, 0.0) && IsTenths(1000, 100.0);
    Round1Between(0.0, sum / n as real, 100.0);
    Round1OnTenths(sum / n as real);
  }

  // ── The loop ─────────────────────────────────────────────────────────────

  lemma {:induction false} NoProfiles(traits: seq<ReportedTrait>)
    ensures Profiles(traits, []) == []
  {
  }

  lemma {:induction false} ProfilesNext(traits: seq<ReportedTrait>, ds: seq<Definition>, d: nat)
    requires d < |ds|
    ensures Profiles(traits, ds[..d + 1])
            == Profiles(traits, ds[..d])
               + (if Composite(traits, ds[d]).Some? then [Composite(traits, ds[d]).value] else [])
  {
    hide Composite;
    assert ds[..d + 1][..d] == ds[..d];
  }

  /** Builds the composites one definition at a time. */
  method BuildBehavioralProfiles(traits: seq<ReportedTrait>) returns (profiles: seq<ProfileScore>, index: Option<real>)
    ensures profiles == Profiles(traits, BEHAVIORAL_PROFILES)
    ensures index == BehavioralIndex(profiles)
  {
    hide Profiles, Present, TotalWeight, TotalScore, TotalConfidence, Round1, Round2, BandFor;
    profiles := [];
    NoProfiles(traits);
    assert BEHAVIORAL_PROFILES[..0] == [];
    for d := 0 to |BEHAVIORAL_PROFILES|
      invariant profiles == Profiles(traits, BEHAVIORAL_PROFILES[..d])
    {
      ProfilesNext(traits, BEHAVIORAL_PROFILES, d);
      var present := Present(traits, BEHAVIORAL_PROFILES[d].weights);
      var totalWeight := TotalWeight(present);
      if totalWeight == 0.0 {
        continue;
      }
      var score := TotalScore(present) / totalWeight;
      var confidence := TotalConfidence(present) / totalWeight;
      var reportable := confidence >= MIN_TRAIT_CONFIDENCE;
      profiles := profiles + [ProfileScore(
        BEHAVIORAL_PROFILES[d].key,
        if reportable then Some(Round1(score)) else None,
        Round2(confidence),
        if reportable then Some(BandFor(score)) else None)];
    }
    assert BEHAVIORAL_PROFILES[..|BEHAVIORAL_PROFILES|] == BEHAVIORAL_PROFILES;
    index := BehavioralIndex(profiles);
  }
}
