/** The NOS scoring engine: stars per criterion, per domain and per study,
    and the quality tier a total earns. */
module Scoring {
  import opened Registry

  /** An answer set: criterion name to the chosen answer key. */
  type Assessment = map<string, string>

  /** The stars the engine hard-codes for the comparability criterion,
      whatever its table says. */
  function ComparabilityStars(selected: string): (r: nat)
    ensures r <= 2
    ensures r == 2 <==> selected == AdditionalFactor
    ensures r == 1 <==> selected == MostImportant
  {
    if selected == MostImportant then 1
    else if selected == AdditionalFactor then 2
    else 0
  }

  /** The highest number of stars one criterion can add. */
  function StarCeiling(c: Criterion): nat
  {
    if Overridden(c) then 2 else 1
  }

  /** The stars one criterion adds to a total. A criterion with no answer, or
      whose answer is not a key of its star table, adds nothing; the
      overridden comparability criterion adds ComparabilityStars; every other
      criterion adds its table weight. */
  function CriterionStars(c: Criterion, a: Assessment): (r: int)
    ensures WellFormedCriterion(c) ==> 0 <= r <= StarCeiling(c)
    ensures c.name !in a || a[c.name] !in StarKeys(c.stars) ==> r == 0
  {
    if c.name in a && a[c.name] in StarKeys(c.stars) then
      if Overridden(c) then ComparabilityStars(a[c.name])
      else StarsGet(c.stars, a[c.name], 0)
    else 0
  }

  /** The stars a sequence of criteria adds up to. */
  function StarsOver(cs: seq<Criterion>, a: Assessment): int
  {
    if cs == [] then 0 else CriterionStars(cs[0], a) + StarsOver(cs[1..], a)
  }

  /** The stars of one domain: the one per-domain rule. */
  function DomainStars(d: Domain, a: Assessment): int
  {
    StarsOver(d.criteria, a)
  }

  /** The total of a study: the stars of every criterion of its type. */
  function TotalStars(ds: seq<Domain>, a: Assessment): int
  {
    StarsOver(AllCriteria(ds), a)
  }

  /** The per-domain stars of a study type, domain by domain. */
  function DomainTotals(ds: seq<Domain>, a: Assessment): (r: seq<int>)
    ensures |r| == |ds|
  {
    seq(|ds|, i requires 0 <= i < |ds| => DomainStars(ds[i], a))
  }

  function Sum(xs: seq<int>): int
  {
    if xs == [] then 0 else xs[0] + Sum(xs[1..])
  }

  /** The denominator of a domain's share in the heatmap: the number of its
      criteria, or 2 for the Comparability domain. */
  function DomainMax(d: Domain): int
  {
    if d.name == ComparabilityDomain then 2 else |d.criteria|
  }

  function MaxTotal(ds: seq<Domain>): int
  {
    if ds == [] then 0 else DomainMax(ds[0]) + MaxTotal(ds[1..])
  }

  /** The ceiling of a study type as the rating function declares it. */
  function MaxStars(studyType: string): nat
  {
    if UsesNineStarScale(studyType) then 9 else 8
  }

  predicate UsesNineStarScale(studyType: string)
  {
    studyType in [CohortStudies, CaseControlStudies]
  }

  datatype Tier = Good | Fair | Poor

  function Label(t: Tier): string
  {
    match t
    case Good => "Good Quality"
    case Fair => "Fair Quality"
    case Poor => "Poor Quality"
  }

  /** The display colour paired with each tier. */
  function Color(t: Tier): string
  {
    match t
    case Good => "#28a745"
    case Fair => "#ffc107"
    case Poor => "#dc3545"
  }

  /** The position of a tier on the quality order, Poor lowest. */
  function Rank(t: Tier): nat
  {
    match t
    case Poor => 0
    case Fair => 1
    case Good => 2
  }

  /** The quality tier of a total. Cohort and case-control studies: Good from
      7, Fair for 5 and 6, Poor up to 4. Any other study type string: Good
      from 6, Fair for 4 and 5, Poor up to 3. */
  function QualityRating(totalStars: int, studyType: string): (r: Tier)
    ensures UsesNineStarScale(studyType) ==>
      && (r == Good <==> 7 <= totalStars)
      && (r == Fair <==> 5 <= totalStars <= 6)
      && (r == Poor <==> totalStars <= 4)
    ensures !UsesNineStarScale(studyType) ==>
      && (r == Good <==> 6 <= totalStars)
      && (r == Fair <==> 4 <= totalStars <= 5)
      && (r == Poor <==> totalStars <= 3)
  {
    if UsesNineStarScale(studyType) then
      if totalStars >= 7 then Good
      else if totalStars >= 5 then Fair
      else Poor
    else
      if totalStars >= 6 then Good
      else if totalStars >= 4 then Fair
      else Poor
  }

  /** More stars never give a worse tier. */
  lemma QualityMonotone(x: int, y: int, studyType: string)
    requires x <= y
    ensures Rank(QualityRating(x, studyType)) <= Rank(QualityRating(y, studyType))
  {
  }

  /** The three labels are distinct, so counting records by label is
      counting them by tier. */
  lemma LabelsDistinct(s: Tier, t: Tier)
    ensures Label(s) == Label(t) <==> s == t
  {
  }

  lemma {:induction false} StarsOverAppend(xs: seq<Criterion>, ys: seq<Criterion>, a: Assessment)
    ensures StarsOver(xs + ys, a) == StarsOver(xs, a) + StarsOver(ys, a)
  {
    if xs == [] {
      assert xs + ys == ys;
    } else {
      assert (xs + ys)[1..] == xs[1..] + ys;
      StarsOverAppend(xs[1..], ys, a);
    }
  }

  /** Extending a prefix of criteria by one adds that criterion's stars. */
  lemma StarsOverStep(cs: seq<Criterion>, j: nat, a: Assessment)
    requires j < |cs|
    ensures StarsOver(cs[..j + 1], a) == StarsOver(cs[..j], a) + CriterionStars(cs[j], a)
  {
    assert cs[..j + 1] == cs[..j] + [cs[j]];
    StarsOverAppend(cs[..j], [cs[j]], a);
  }

  lemma {:induction false} AllCriteriaAppend(ds: seq<Domain>, es: seq<Domain>)
    ensures AllCriteria(ds + es) == AllCriteria(ds) + AllCriteria(es)
  {
    if ds == [] {
      assert ds + es == es;
    } else {
      assert (ds + es)[1..] == ds[1..] + es;
      AllCriteriaAppend(ds[1..], es);
    }
  }

  /** Extending a prefix of domains by one adds that domain's stars. */
  lemma TotalStarsStep(ds: seq<Domain>, i: nat, a: Assessment)
    requires i < |ds|
    ensures TotalStars(ds[..i + 1], a) == TotalStars(ds[..i], a) + DomainStars(ds[i], a)
  {
    assert ds[..i + 1] == ds[..i] + [ds[i]];
    AllCriteriaAppend(ds[..i], [ds[i]]);
    assert AllCriteria([ds[i]]) == ds[i].criteria;
    StarsOverAppend(AllCriteria(ds[..i]), ds[i].criteria, a);
  }

  /** An answer that is not a key of its criterion's star table counts as no
      answer at all. */
  lemma {:induction false} UnrecognisedAnswerIgnored(cs: seq<Criterion>, a: Assessment, name: string, key: string)
    requires forall k :: 0 <= k < |cs| && cs[k].name == name ==> key !in StarKeys(cs[k].stars)
    ensures StarsOver(cs, a[name := key]) == StarsOver(cs, a - {name})
  {
    if cs != [] {
      UnrecognisedAnswerIgnored(cs[1..], a, name, key);
    }
  }

  /** Domain additivity: the per-domain stars add up to the total. */
  lemma {:induction false} DomainsAddUpToTotal(ds: seq<Domain>, a: Assessment)
    ensures Sum(DomainTotals(ds, a)) == TotalStars(ds, a)
  {
    if ds != [] {
      assert DomainTotals(ds, a)[1..] == DomainTotals(ds[1..], a);
      DomainsAddUpToTotal(ds[1..], a);
      StarsOverAppend(ds[0].criteria, AllCriteria(ds[1..]), a);
    }
  }

  /** Without an overridden criterion, a run of criteria earns at most one
      star per criterion. */
  lemma {:induction false} StarsOverAtMostCount(cs: seq<Criterion>, a: Assessment)
    requires forall k :: 0 <= k < |cs| ==> WellFormedCriterion(cs[k]) && !Overridden(cs[k])
    ensures 0 <= StarsOver(cs, a) <= |cs|
  {
    if cs != [] {
      StarsOverAtMostCount(cs[1..], a);
    }
  }

  /** Domain ceiling: a domain earns between 0 and its heatmap denominator,
      which is positive. */
  lemma DomainCeiling(d: Domain, a: Assessment)
    requires WellFormedDomain(d)
    ensures 0 < DomainMax(d)
    ensures 0 <= DomainStars(d, a) <= DomainMax(d)
  {
    if d.name == ComparabilityDomain {
      assert d.criteria == [d.criteria[0]];
      assert StarsOver(d.criteria, a) == CriterionStars(d.criteria[0], a) + StarsOver([], a);
    } else {
      StarsOverAtMostCount(d.criteria, a);
    }
  }

  /** A well-formed study type earns between 0 and the sum of its domain
      ceilings. */
  lemma {:induction false} TotalAtMostMaxTotal(ds: seq<Domain>, a: Assessment)
    requires forall i :: 0 <= i < |ds| ==> WellFormedDomain(ds[i])
    ensures 0 <= TotalStars(ds, a) <= MaxTotal(ds)
  {
    if ds != [] {
      DomainCeiling(ds[0], a);
      TotalAtMostMaxTotal(ds[1..], a);
      StarsOverAppend(ds[0].criteria, AllCriteria(ds[1..]), a);
    }
  }

  /** Bounds: every assessment of a registry study type earns between 0 and
      9 stars (cohort, case-control) or 8 stars (cross-sectional). */
  lemma TotalBounds(studyType: string, a: Assessment)
    requires studyType in StudyTypes
    ensures CriteriaFor(studyType).Ok?
    ensures 0 <= TotalStars(CriteriaFor(studyType).value, a) <= MaxStars(studyType)
  {
    RegistryWellFormed(studyType);
    var ds := CriteriaFor(studyType).value;
    TotalAtMostMaxTotal(ds, a);
    assert ds[1..][1..][1..] == [];
    assert MaxTotal(ds[1..][1..]) == DomainMax(ds[2]);
    assert MaxTotal(ds) == DomainMax(ds[0]) + DomainMax(ds[1]) + DomainMax(ds[2]);
  }

  /** `calculate_total_stars`: the nested loop over the domains and criteria
      of the study type, accumulating the stars of each answered criterion. */
  method CalculateTotalStars(assessment: Assessment, studyType: string) returns (r: Result<int>)
    ensures r.Err? <==> studyType !in StudyTypes
    ensures r.Err? ==> r.error == UnknownStudyType(studyType)
    ensures r.Ok? ==> r.value == TotalStars(CriteriaFor(studyType).value, assessment)
  {
    var criteria := CriteriaFor(studyType);
    if criteria.Err? {
      return Err(criteria.error);
    }
    var ds := criteria.value;
    var totalStars := 0;
    var i := 0;
    while i < |ds|
      invariant 0 <= i <= |ds|
      invariant totalStars == TotalStars(ds[..i], assessment)
    {
      var cs := ds[i].criteria;
      var j := 0;
      while j < |cs|
        invariant 0 <= j <= |cs|
        invariant totalStars == TotalStars(ds[..i], assessment) + StarsOver(cs[..j], assessment)
      {
        var c := cs[j];
        if c.name in assessment {
          var selected := assessment[c.name];
          if selected in StarKeys(c.stars) {
            var stars := StarsGet(c.stars, selected, 0);
            if c.name == ComparabilityName && c.maxStars.Some? {
              if selected == MostImportant {
                totalStars := totalStars + 1;
              } else if selected == AdditionalFactor {
                totalStars := totalStars + 2;
              }
            } else {
              totalStars := totalStars + stars;
            }
          }
        }
        StarsOverStep(cs, j, assessment);
        j := j + 1;
      }
      assert cs[..j] == cs;
      TotalStarsStep(ds, i, assessment);
      i := i + 1;
    }
    assert ds[..i] == ds;
    return Ok(totalStars);
  }
}
