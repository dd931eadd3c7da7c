/** The Newcastle-Ottawa Scale criteria registry: for each study type, its
    domains in order, each domain's criteria in order, and for each criterion
    its answer keys and the star weight of every answer. */
module Registry {

  datatype Option<T> = None | Some(value: T)

  /** Failure of a registry lookup: the study type is not one of its keys. */
  datatype Error = UnknownStudyType(studyType: string)

  datatype Result<T> = Ok(value: T) | Err(error: Error)

  /** One checklist question. `options` are the answer keys in the order the
      form shows them; `stars` are the star weights per answer key; `maxStars`
      is the optional `max_stars` tag. Question and answer texts are not kept. */
  datatype Criterion = Criterion(
    name: string,
    options: seq<string>,
    stars: seq<(string, int)>,
    maxStars: Option<nat>)

  /** A named group of criteria: Selection, Comparability, Outcome or Exposure. */
  datatype Domain = Domain(name: string, criteria: seq<Criterion>)

  const CohortStudies := "Cohort Studies"
  const CaseControlStudies := "Case-Control Studies"
  const CrossSectionalStudies := "Cross-Sectional Studies"

  /** The registry's keys in their declaration order (the study-type selector). */
  const StudyTypes: seq<string> := [CohortStudies, CaseControlStudies, CrossSectionalStudies]

  const ComparabilityDomain := "Comparability"
  const ComparabilityName := "comparability"
  const MostImportant := "most_important"
  const AdditionalFactor := "additional_factor"

  /** The answer keys of a star table, in order. */
  function StarKeys(stars: seq<(string, int)>): seq<string>
  {
    seq(|stars|, i requires 0 <= i < |stars| => stars[i].0)
  }

  /** `stars.get(key, default)`: the weight of the first entry for `key`. */
  function StarsGet(stars: seq<(string, int)>, key: string, default: int): (v: int)
    ensures key !in StarKeys(stars) ==> v == default
    ensures key in StarKeys(stars) ==> exists i :: 0 <= i < |stars| && stars[i] == (key, v)
  {
    if stars == [] then default
    else if stars[0].0 == key then
      assert StarKeys(stars)[0] == key;
      stars[0].1
    else
      assert StarKeys(stars) == [stars[0].0] + StarKeys(stars[1..]);
      var v := StarsGet(stars[1..], key, default);
      assert key in StarKeys(stars[1..]) ==> exists i :: 0 <= i < |stars[1..]| && stars[1..][i] == (key, v);
      v
  }

  /** The criterion whose score the engine overrides: named `comparability`
      and carrying a `max_stars` tag. */
  predicate Overridden(c: Criterion)
  {
    c.name == ComparabilityName && c.maxStars.Some?
  }

  predicate Distinct(s: seq<string>)
  {
    forall i, j :: 0 <= i < j < |s| ==> s[i] != s[j]
  }

  /** All criteria of a study type, domain by domain, in form order. */
  function AllCriteria(ds: seq<Domain>): seq<Criterion>
  {
    if ds == [] then [] else ds[0].criteria + AllCriteria(ds[1..])
  }

  function Names(cs: seq<Criterion>): seq<string>
  {
    seq(|cs|, i requires 0 <= i < |cs| => cs[i].name)
  }

  function DomainNames(ds: seq<Domain>): seq<string>
  {
    seq(|ds|, i requires 0 <= i < |ds| => ds[i].name)
  }

  /** What the registry's entries satisfy: the answer keys are exactly the star
      table's keys, distinct and never empty; every weight is 0 or 1; and for
      the overridden criterion every answer other than the two overridden ones
      weighs 0. */
  predicate WellFormedCriterion(c: Criterion)
  {
    && |c.options| > 0
    && c.options == StarKeys(c.stars)
    && Distinct(c.options)
    && "" !in c.options
    && (forall i :: 0 <= i < |c.stars| ==> 0 <= c.stars[i].1 <= 1)
    && (Overridden(c) ==>
          forall i :: 0 <= i < |c.stars| && c.stars[i].0 != MostImportant && c.stars[i].0 != AdditionalFactor ==>
            c.stars[i].1 == 0)
  }

  /** The Comparability domain holds one criterion; every other domain is
      non-empty and holds no overridden criterion. */
  predicate WellFormedDomain(d: Domain)
  {
    && (forall k :: 0 <= k < |d.criteria| ==> WellFormedCriterion(d.criteria[k]))
    && if d.name == ComparabilityDomain then |d.criteria| == 1
       else |d.criteria| > 0 && forall k :: 0 <= k < |d.criteria| ==> !Overridden(d.criteria[k])
  }

  /** Domain names are distinct keys, and so are criterion names across the
      whole study type. */
  predicate WellFormedStudyType(ds: seq<Domain>)
  {
    && (forall i :: 0 <= i < |ds| ==> WellFormedDomain(ds[i]))
    && Distinct(DomainNames(ds))
    && Distinct(Names(AllCriteria(ds)))
  }

  // Criteria of the registry, one constant per distinct entry. Entries that
  // differ between study types only in question or answer text share a
  // constant, since neither text is kept.

  const Representativeness := Criterion("representativeness",
    ["truly_representative", "somewhat_representative", "selected_group", "no_description"],
    [("truly_representative", 1), ("somewhat_representative", 1), ("selected_group", 0), ("no_description", 0)],
    None)
  const SelectionNonexposed := Criterion("selection_nonexposed",
    ["same_community", "different_source", "no_description"],
    [("same_community", 1), ("different_source", 0), ("no_description", 0)],
    None)
  const CohortAscertainmentExposure := Criterion("ascertainment_exposure",
    ["secure_record", "structured_interview", "written_self_report", "no_description"],
    [("secure_record", 1), ("structured_interview", 1), ("written_self_report", 0), ("no_description", 0)],
    None)
  const OutcomeNotPresent := Criterion("outcome_not_present",
    ["yes", "no"],
    [("yes", 1), ("no", 0)],
    None)
  /** The comparability criterion: table weight 1 for both starred answers,
      tagged `max_stars: 2`. */
  const Comparability := Criterion("comparability",
    ["most_important", "additional_factor", "no_control"],
    [("most_important", 1), ("additional_factor", 1), ("no_control", 0)],
    Some(2))
  const AssessmentOutcome := Criterion("assessment_outcome",
    ["independent_blind", "record_linkage", "self_report", "no_description"],
    [("independent_blind", 1), ("record_linkage", 1), ("self_report", 0), ("no_description", 0)],
    None)
  const AdequateFollowupLength := Criterion("adequate_followup_length",
    ["yes", "no"],
    [("yes", 1), ("no", 0)],
    None)
  const AdequacyFollowup := Criterion("adequacy_followup",
    ["complete_followup", "small_loss", "high_loss", "no_statement"],
    [("complete_followup", 1), ("small_loss", 1), ("high_loss", 0), ("no_statement", 0)],
    None)

  const CaseDefinition := Criterion("case_definition",
    ["independent_validation", "record_linkage", "no_description"],
    [("independent_validation", 1), ("record_linkage", 0), ("no_description", 0)],
    None)
  const RepresentativenessCases := Criterion("representativeness_cases",
    ["consecutive_series", "potential_selection"],
    [("consecutive_series", 1), ("potential_selection", 0)],
    None)
  const SelectionControls := Criterion("selection_controls",
    ["community_controls", "hospital_controls", "no_description"],
    [("community_controls", 1), ("hospital_controls", 0), ("no_description", 0)],
    None)
  const DefinitionControls := Criterion("definition_controls",
    ["no_history", "no_description"],
    [("no_history", 1), ("no_description", 0)],
    None)
  const CaseControlAscertainmentExposure := Criterion("ascertainment_exposure",
    ["secure_record", "structured_interview", "interview_not_blinded", "written_self_report", "no_description"],
    [("secure_record", 1), ("structured_interview", 1), ("interview_not_blinded", 0),
     ("written_self_report", 0), ("no_description", 0)],
    None)
  const SameMethod := Criterion("same_method",
    ["yes", "no"],
    [("yes", 1), ("no", 0)],
    None)
  const NonResponseRate := Criterion("non_response_rate",
    ["same_rate", "non_respondents", "rate_different"],
    [("same_rate", 1), ("non_respondents", 0), ("rate_different", 0)],
    None)

  const SampleSize := Criterion("sample_size",
    ["justified", "not_justified"],
    [("justified", 1), ("not_justified", 0)],
    None)
  const NonRespondents := Criterion("non_respondents",
    ["comparability", "response_rate", "no_description"],
    [("comparability", 1), ("response_rate", 0), ("no_description", 0)],
    None)
  const ExposureOutcome := Criterion("exposure_outcome",
    ["validated_tool", "non_validated"],
    [("validated_tool", 1), ("non_validated", 0)],
    None)
  const StatisticalTest := Criterion("statistical_test",
    ["appropriate", "inappropriate"],
    [("appropriate", 1), ("inappropriate", 0)],
    None)

  const CohortDomains: seq<Domain> := [
    Domain("Selection", [Representativeness, SelectionNonexposed, CohortAscertainmentExposure, OutcomeNotPresent]),
    Domain("Comparability", [Comparability]),
    Domain("Outcome", [AssessmentOutcome, AdequateFollowupLength, AdequacyFollowup])]

  const CaseControlDomains: seq<Domain> := [
    Domain("Selection", [CaseDefinition, RepresentativenessCases, SelectionControls, DefinitionControls]),
    Domain("Comparability", [Comparability]),
    Domain("Exposure", [CaseControlAscertainmentExposure, SameMethod, NonResponseRate])]

  const CrossSectionalDomains: seq<Domain> := [
    Domain("Selection", [Representativeness, SampleSize, NonRespondents, ExposureOutcome]),
    Domain("Comparability", [Comparability]),
    Domain("Outcome", [AssessmentOutcome, StatisticalTest])]

  /** `NOS_CRITERIA[studyType]`: the domains of a study type, or the lookup
      failure for a string that is not one of the three keys. */
  function CriteriaFor(studyType: string): (r: Result<seq<Domain>>)
    ensures r.Ok? <==> studyType in StudyTypes
    ensures r.Err? ==> r.error == UnknownStudyType(studyType)
  {
    if studyType == CohortStudies then Ok(CohortDomains)
    else if studyType == CaseControlStudies then Ok(CaseControlDomains)
    else if studyType == CrossSectionalStudies then Ok(CrossSectionalDomains)
    else Err(UnknownStudyType(studyType))
  }

  /** The shape every study type of the registry shares. */
  predicate NosShape(ds: seq<Domain>)
  {
    && WellFormedStudyType(ds)
    && |ds| == 3
    && ds[0].name == "Selection" && |ds[0].criteria| == 4
    && ds[1].name == ComparabilityDomain && |ds[1].criteria| == 1
    && ds[1].criteria[0] == Comparability
    && AllCriteria(ds) == ds[0].criteria + ds[1].criteria + ds[2].criteria
    && Comparability in AllCriteria(ds)
    && (forall k :: 0 <= k < |AllCriteria(ds)| && Overridden(AllCriteria(ds)[k]) ==> AllCriteria(ds)[k] == Comparability)
  }

  lemma RepresentativenessWellFormed() ensures WellFormedCriterion(Representativeness) {}
  lemma SelectionNonexposedWellFormed() ensures WellFormedCriterion(SelectionNonexposed) {}
  lemma CohortAscertainmentExposureWellFormed() ensures WellFormedCriterion(CohortAscertainmentExposure) {}
  lemma OutcomeNotPresentWellFormed() ensures WellFormedCriterion(OutcomeNotPresent) {}
  lemma ComparabilityWellFormed() ensures WellFormedCriterion(Comparability) {}
  lemma AssessmentOutcomeWellFormed() ensures WellFormedCriterion(AssessmentOutcome) {}
  lemma AdequateFollowupLengthWellFormed() ensures WellFormedCriterion(AdequateFollowupLength) {}
  lemma AdequacyFollowupWellFormed() ensures WellFormedCriterion(AdequacyFollowup) {}
  lemma CaseDefinitionWellFormed() ensures WellFormedCriterion(CaseDefinition) {}
  lemma RepresentativenessCasesWellFormed() ensures WellFormedCriterion(RepresentativenessCases) {}
  lemma SelectionControlsWellFormed() ensures WellFormedCriterion(SelectionControls) {}
  lemma DefinitionControlsWellFormed() ensures WellFormedCriterion(DefinitionControls) {}
  lemma CaseControlAscertainmentExposureWellFormed() ensures WellFormedCriterion(CaseControlAscertainmentExposure) {}
  lemma SameMethodWellFormed() ensures WellFormedCriterion(SameMethod) {}
  lemma NonResponseRateWellFormed() ensures WellFormedCriterion(NonResponseRate) {}
  lemma SampleSizeWellFormed() ensures WellFormedCriterion(SampleSize) {}
  lemma NonRespondentsWellFormed() ensures WellFormedCriterion(NonRespondents) {}
  lemma ExposureOutcomeWellFormed() ensures WellFormedCriterion(ExposureOutcome) {}
  lemma StatisticalTestWellFormed() ensures WellFormedCriterion(StatisticalTest) {}

  lemma CohortCriteria()
    ensures Distinct(DomainNames(CohortDomains))
    ensures Distinct(Names(AllCriteria(CohortDomains)))
    ensures AllCriteria(CohortDomains) == CohortDomains[0].criteria + CohortDomains[1].criteria + CohortDomains[2].criteria
    ensures Comparability in AllCriteria(CohortDomains)
    ensures forall k :: 0 <= k < |AllCriteria(CohortDomains)| && Overridden(AllCriteria(CohortDomains)[k]) ==>
      AllCriteria(CohortDomains)[k] == Comparability
  {
    var ds := CohortDomains;
    assert ds[1..][1..][1..] == [];
    assert AllCriteria(ds[1..][1..]) == ds[2].criteria;
    assert AllCriteria(ds) == ds[0].criteria + ds[1].criteria + ds[2].criteria;
    assert AllCriteria(ds) == [Representativeness, SelectionNonexposed, CohortAscertainmentExposure, OutcomeNotPresent, Comparability, AssessmentOutcome, AdequateFollowupLength, AdequacyFollowup];
  }

  lemma CohortShape()
    ensures NosShape(CohortDomains)
  {
    var ds := CohortDomains;
    RepresentativenessWellFormed(); SelectionNonexposedWellFormed(); CohortAscertainmentExposureWellFormed(); OutcomeNotPresentWellFormed();
    ComparabilityWellFormed(); AssessmentOutcomeWellFormed(); AdequateFollowupLengthWellFormed(); AdequacyFollowupWellFormed();
    assert WellFormedDomain(ds[0]);
    assert WellFormedDomain(ds[1]);
    assert WellFormedDomain(ds[2]);
    CohortCriteria();
  }

  lemma CaseControlCriteria()
    ensures Distinct(DomainNames(CaseControlDomains))
    ensures Distinct(Names(AllCriteria(CaseControlDomains)))
    ensures AllCriteria(CaseControlDomains) == CaseControlDomains[0].criteria + CaseControlDomains[1].criteria + CaseControlDomains[2].criteria
    ensures Comparability in AllCriteria(CaseControlDomains)
    ensures forall k :: 0 <= k < |AllCriteria(CaseControlDomains)| && Overridden(AllCriteria(CaseControlDomains)[k]) ==>
      AllCriteria(CaseControlDomains)[k] == Comparability
  {
    var ds := CaseControlDomains;
    assert ds[1..][1..][1..] == [];
    assert AllCriteria(ds[1..][1..]) == ds[2].criteria;
    assert AllCriteria(ds) == ds[0].criteria + ds[1].criteria + ds[2].criteria;
    assert AllCriteria(ds) == [CaseDefinition, RepresentativenessCases, SelectionControls, DefinitionControls, Comparability, CaseControlAscertainmentExposure, SameMethod, NonResponseRate];
  }

  lemma CaseControlShape()
    ensures NosShape(CaseControlDomains)
  {
    var ds := CaseControlDomains;
    CaseDefinitionWellFormed(); RepresentativenessCasesWellFormed(); SelectionControlsWellFormed(); DefinitionControlsWellFormed();
    ComparabilityWellFormed(); CaseControlAscertainmentExposureWellFormed(); SameMethodWellFormed(); NonResponseRateWellFormed();
    assert WellFormedDomain(ds[0]);
    assert WellFormedDomain(ds[1]);
    assert WellFormedDomain(ds[2]);
    CaseControlCriteria();
  }

  lemma CrossSectionalCriteria()
    ensures Distinct(DomainNames(CrossSectionalDomains))
    ensures Distinct(Names(AllCriteria(CrossSectionalDomains)))
    ensures AllCriteria(CrossSectionalDomains) == CrossSectionalDomains[0].criteria + CrossSectionalDomains[1].criteria + CrossSectionalDomains[2].criteria
    ensures Comparability in AllCriteria(CrossSectionalDomains)
    ensures forall k :: 0 <= k < |AllCriteria(CrossSectionalDomains)| && Overridden(AllCriteria(CrossSectionalDomains)[k]) ==>
      AllCriteria(CrossSectionalDomains)[k] == Comparability
  {
    var ds := CrossSectionalDomains;
    assert ds[1..][1..][1..] == [];
    assert AllCriteria(ds[1..][1..]) == ds[2].criteria;
    assert AllCriteria(ds) == ds[0].criteria + ds[1].criteria + ds[2].criteria;
    assert AllCriteria(ds) == [Representativeness, SampleSize, NonRespondents, ExposureOutcome, Comparability, AssessmentOutcome, StatisticalTest];
  }

  lemma CrossSectionalShape()
    ensures NosShape(CrossSectionalDomains)
  {
    var ds := CrossSectionalDomains;
    RepresentativenessWellFormed(); SampleSizeWellFormed(); NonRespondentsWellFormed(); ExposureOutcomeWellFormed();
    ComparabilityWellFormed(); AssessmentOutcomeWellFormed(); StatisticalTestWellFormed();
    assert WellFormedDomain(ds[0]);
    assert WellFormedDomain(ds[1]);
    assert WellFormedDomain(ds[2]);
    CrossSectionalCriteria();
  }
  /** Every study type of the registry satisfies the well-formedness the
      engine relies on and has three domains, Selection (four criteria),
      Comparability (the one overridden criterion, tagged `max_stars: 2`)
      and Outcome or Exposure, in that order. */
  lemma RegistryWellFormed(studyType: string)
    requires studyType in StudyTypes
    ensures CriteriaFor(studyType).Ok?
    ensures NosShape(CriteriaFor(studyType).value)
  {
    if studyType == CohortStudies { CohortShape(); }
    else if studyType == CaseControlStudies { CaseControlShape(); }
    else { CrossSectionalShape(); }
  }
}
