/** The two places that recompute per-domain stars for display: the report's
    domain heatmap and the detailed assessment view of a saved study. Both
    are shown equal to Scoring.DomainStars. */
module Views {
  import opened Registry
  import opened Scoring
  import opened Studies

  /** `NOS_CRITERIA[study_type][domain]` when the study type has that domain. */
  function FindDomain(ds: seq<Domain>, name: string): (r: Option<Domain>)
    ensures r.None? <==> name !in DomainNames(ds)
    ensures r.Some? ==> exists i :: 0 <= i < |ds| && ds[i] == r.value && ds[i].name == name
  {
    if ds == [] then None
    else if ds[0].name == name then
      assert DomainNames(ds)[0] == name;
      Some(ds[0])
    else
      assert DomainNames(ds) == [ds[0].name] + DomainNames(ds[1..]);
      var r := FindDomain(ds[1..], name);
      assert r.Some? ==> exists i :: 0 <= i < |ds[1..]| && ds[1..][i] == r.value && ds[1..][i].name == name;
      r
  }

  /** One heatmap cell: a domain the study type lacks, a domain's stars over
      its ceiling, or the plain 0 written when the ceiling is not positive. */
  datatype Cell = NotApplicable | Share(stars: int, maxStars: int) | Zero

  /** The domain names of every listed study's type: the heatmap's columns
      before sorting. */
  method CollectDomains(studies: seq<StudyRecord>) returns (all: set<string>)
    requires forall k :: 0 <= k < |studies| ==> studies[k].studyType in StudyTypes
    ensures forall k, n :: 0 <= k < |studies| && n in DomainNames(CriteriaFor(studies[k].studyType).value) ==> n in all
    ensures forall n :: n in all ==>
      exists k :: 0 <= k < |studies| && n in DomainNames(CriteriaFor(studies[k].studyType).value)
  {
    all := {};
    var k := 0;
    while k < |studies|
      invariant 0 <= k <= |studies|
      invariant forall m, n :: 0 <= m < k && n in DomainNames(CriteriaFor(studies[m].studyType).value) ==> n in all
      invariant forall n :: n in all ==>
        exists m :: 0 <= m < k && n in DomainNames(CriteriaFor(studies[m].studyType).value)
    {
      var names := DomainNames(CriteriaFor(studies[k].studyType).value);
      all := all + set n | n in names;
      k := k + 1;
    }
  }

  /** What a heatmap row holds for the domains `ds` of a study type: for
      each column, the stars of the domain of that name over the domain's
      ceiling, or NotApplicable when the type has no such domain. */
  ghost predicate RowOf(ds: seq<Domain>, a: Assessment, allDomains: seq<string>, row: seq<Cell>)
  {
    && |row| == |allDomains|
    && forall k :: 0 <= k < |allDomains| ==>
      && (allDomains[k] !in DomainNames(ds) <==> row[k] == NotApplicable)
      && (allDomains[k] in DomainNames(ds) ==>
            var d := FindDomain(ds, allDomains[k]).value;
            row[k] == Share(DomainStars(d, a), DomainMax(d)))
  }

  /** The body of the heatmap's row loop (one pass over the columns) for the
      domains of a well-formed study type. Every share lies in [0, ceiling]
      and no ceiling is 0, so the plain-0 cell never occurs. */
  method DomainShares(ds: seq<Domain>, assessment: Assessment, allDomains: seq<string>) returns (row: seq<Cell>)
    requires forall i :: 0 <= i < |ds| ==> WellFormedDomain(ds[i])
    ensures RowOf(ds, assessment, allDomains, row)
    ensures forall k :: 0 <= k < |row| ==> row[k] != Zero
    ensures forall k :: 0 <= k < |row| && row[k].Share? ==> 0 <= row[k].stars <= row[k].maxStars && 0 < row[k].maxStars
  {
    row := [];
    var k := 0;
    while k < |allDomains|
      invariant 0 <= k <= |allDomains|
      invariant RowOf(ds, assessment, allDomains[..k], row)
      invariant forall m :: 0 <= m < k ==> row[m] != Zero
      invariant forall m :: 0 <= m < k && row[m].Share? ==> 0 <= row[m].stars <= row[m].maxStars && 0 < row[m].maxStars
    {
      var domain := allDomains[k];
      var found := FindDomain(ds, domain);
      if found.Some? {
        var domainCriteria := found.value.criteria;
        var domainStars := 0;
        var j := 0;
        while j < |domainCriteria|
          invariant 0 <= j <= |domainCriteria|
          invariant domainStars == StarsOver(domainCriteria[..j], assessment)
        {
          var c := domainCriteria[j];
          if c.name in assessment {
            var selected := assessment[c.name];
            if selected in StarKeys(c.stars) {
              var stars := StarsGet(c.stars, selected, 0);
              if c.name == ComparabilityName && c.maxStars.Some? {
                if selected == MostImportant {
                  domainStars := domainStars + 1;
                } else if selected == AdditionalFactor {
                  domainStars := domainStars + 2;
                }
              } else {
                domainStars := domainStars + stars;
              }
            }
          }
          StarsOverStep(domainCriteria, j, assessment);
          j := j + 1;
        }
        assert domainCriteria[..j] == domainCriteria;
        var maxDomainStars := |domainCriteria|;
        if domain == ComparabilityDomain {
          maxDomainStars := 2;
        }
        DomainCeiling(found.value, assessment);
        if maxDomainStars > 0 {
          row := row + [Share(domainStars, maxDomainStars)];
        } else {
          row := row + [Zero];
        }
      } else {
        row := row + [NotApplicable];
      }
      assert allDomains[..k + 1][..k] == allDomains[..k];
      k := k + 1;
    }
    assert allDomains[..k] == allDomains;
  }

  /** One row of the heatmap for a saved study; fails like the registry
      lookup on an unknown study type. */
  method HeatmapRow(study: StudyRecord, allDomains: seq<string>) returns (r: Result<seq<Cell>>)
    ensures r.Err? <==> study.studyType !in StudyTypes
    ensures r.Err? ==> r.error == UnknownStudyType(study.studyType)
    ensures r.Ok? ==> RowOf(CriteriaFor(study.studyType).value, study.assessment, allDomains, r.value)
    ensures r.Ok? ==> forall k :: 0 <= k < |r.value| && r.value[k].Share? ==>
      0 <= r.value[k].stars <= r.value[k].maxStars && 0 < r.value[k].maxStars
  {
    var criteria := CriteriaFor(study.studyType);
    if criteria.Err? {
      return Err(criteria.error);
    }
    RegistryWellFormed(study.studyType);
    var row := DomainShares(criteria.value, study.assessment, allDomains);
    return Ok(row);
  }

  /** The heatmap: one row per saved study, in list order. */
  method HeatmapMatrix(studies: seq<StudyRecord>, allDomains: seq<string>) returns (matrix: seq<seq<Cell>>)
    requires forall k :: 0 <= k < |studies| ==> studies[k].studyType in StudyTypes
    ensures |matrix| == |studies|
    ensures forall k :: 0 <= k < |studies| ==>
      RowOf(CriteriaFor(studies[k].studyType).value, studies[k].assessment, allDomains, matrix[k])
  {
    matrix := [];
    var k := 0;
    while k < |studies|
      invariant 0 <= k <= |studies|
      invariant |matrix| == k
      invariant forall p :: 0 <= p < k ==>
        RowOf(CriteriaFor(studies[p].studyType).value, studies[p].assessment, allDomains, matrix[p])
    {
      var row := HeatmapRow(studies[k], allDomains);
      matrix := matrix + [row.value];
      k := k + 1;
    }
  }

  /** The body of the detailed view for the domains of a well-formed study
      type: each domain's stars, in domain order. It tests answers against
      the answer keys and falls back to the table weight, where the total
      tests the star table and adds nothing; on a well-formed registry the
      two agree, so each figure is DomainStars. */
  method DetailDomainStars(ds: seq<Domain>, assessment: Assessment) returns (perDomain: seq<int>)
    requires forall i :: 0 <= i < |ds| ==> WellFormedDomain(ds[i])
    ensures perDomain == DomainTotals(ds, assessment)
    ensures Sum(perDomain) == TotalStars(ds, assessment)
  {
    perDomain := [];
    var i := 0;
    while i < |ds|
      invariant 0 <= i <= |ds|
      invariant perDomain == DomainTotals(ds[..i], assessment)
    {
      var domain := ds[i].criteria;
      assert WellFormedDomain(ds[i]);
      var domainStars := 0;
      var j := 0;
      while j < |domain|
        invariant 0 <= j <= |domain|
        invariant domainStars == StarsOver(domain[..j], assessment)
      {
        var c := domain[j];
        assert WellFormedCriterion(c);
        var selected := if c.name in assessment then assessment[c.name] else "";
        if selected in c.options {
          var stars := StarsGet(c.stars, selected, 0);
          if c.name == ComparabilityName && c.maxStars.Some? {
            if selected == MostImportant {
              stars := 1;
            } else if selected == AdditionalFactor {
              stars := 2;
            }
          }
          domainStars := domainStars + stars;
        }
        StarsOverStep(domain, j, assessment);
        j := j + 1;
      }
      assert domain[..j] == domain;
      perDomain := perDomain + [domainStars];
      i := i + 1;
    }
    assert ds[..i] == ds;
    DomainsAddUpToTotal(ds, assessment);
  }

  /** The detailed view of a saved study; fails like the registry lookup on
      an unknown study type. */
  method DetailView(study: StudyRecord) returns (r: Result<seq<int>>)
    ensures r.Err? <==> study.studyType !in StudyTypes
    ensures r.Err? ==> r.error == UnknownStudyType(study.studyType)
    ensures r.Ok? ==> r.value == DomainTotals(CriteriaFor(study.studyType).value, study.assessment)
    ensures r.Ok? ==> Sum(r.value) == TotalStars(CriteriaFor(study.studyType).value, study.assessment)
  {
    var criteria := CriteriaFor(study.studyType);
    if criteria.Err? {
      return Err(criteria.error);
    }
    RegistryWellFormed(study.studyType);
    var perDomain := DetailDomainStars(criteria.value, study.assessment);
    return Ok(perDomain);
  }
}
