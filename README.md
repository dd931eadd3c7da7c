# NOS scoring engine in Dafny

A verified model of the Newcastle-Ottawa Scale (NOS) scoring engine of the
NOS assessment tool (`nos.py`). The tool rates the methodological quality of
observational studies. A reviewer answers one multiple-choice question per
criterion. The engine turns the answers into stars, adds the stars up per
domain and per study, and maps the total to a quality tier. The model
covers:

- **Criteria registry** (`registry.dfy`, module `Registry`). `NOS_CRITERIA`
  holds three study types: Cohort, Case-Control and Cross-Sectional. Each
  type has three domains: Selection, Comparability, and Outcome or
  Exposure. Each criterion has answer keys and a star table.
  - Every entry is a named constant.
  - `CriteriaFor` looks a study type up by its display string. Any other
    string fails with `UnknownStudyType`, as the Python dictionary lookup
    raises.
  - `RegistryWellFormed` proves the properties the engine relies on:
    - answer keys equal star-table keys;
    - weights are 0 or 1;
    - criterion names are unique per type;
    - exactly one overridden comparability criterion.
- **Scoring** (`scoring.dfy`, module `Scoring`).
  - `CriterionStars` is the per-criterion rule of `calculate_total_stars`:
    - a criterion with no answer adds nothing;
    - an answer that is not a key of its star table adds nothing;
    - the comparability criterion tagged `max_stars` is hard-coded to 1
      for `most_important` and 2 for `additional_factor`;
    - every other criterion adds its table weight.
  - `DomainStars` and `TotalStars` are sums of that rule.
  - `CalculateTotalStars` is the source's nested accumulator loop, proved
    equal to `TotalStars`.
  - `QualityRating` is `get_quality_rating`.
- **Form** (`form.dfy`, module `Form`). The add-study form builds an answer
  set from one radio choice per criterion (`BuildAssessment`). It also
  prints a star figure beside each answer (`OptionStars`).
  - The figure is the table weight. For `additional_factor` the table says
    1, but the engine scores 2.
  - The model does not resolve this mismatch. It reproduces both and
    proves their relation exactly: the total equals the stars shown beside
    the chosen answers, plus one when comparability is answered
    `additional_factor` (`TotalVersusShown`).
- **Views** (`views.dfy`, module `Views`). The report's domain heatmap and
  the detailed view of a saved study each re-implement the per-domain
  rule.
  - Both loops are proved equal to `DomainStars`, and the detail view's
    per-domain figures are proved to add up to the total.
  - The detail view tests answers against the answer keys and uses
    `stars.get(key, 0)`. The total tests the star table instead. The two
    agree because the registry's answer keys are exactly its star-table
    keys.
- **Study list** (`studies.dfy`, module `Studies`). The session's list of
  saved assessments is a class with a sequence field.
  - Save appends a scored record, or does nothing when the study name is
    empty.
  - Delete removes by position, and clear empties the list.
  - The report counts records per tier.
  - The class invariant is that every cached score is what the engine
    recomputes from the record's type and answers.

The per-type star ceilings 9, 9 and 8 that `get_quality_rating` declares
are proved to be upper bounds of every total (`TotalBounds`). Each is the
sum of the domain ceilings used by the heatmap: one per criterion, and 2
for Comparability.

`calculate_total_stars` (nos.py:360-380) raises no error for a missing
answer or for an answer key outside the star table; it skips them. The
model therefore has only `UnknownStudyType`, which the registry lookup
raises. `UnrecognisedAnswerIgnored` states that an unknown answer key
counts as no answer.

## Model

| member | source | states |
|---|---|---|
| `Registry.StarsGet` | nos.py:594 | `stars.get(key, default)`: the default when the key is absent, otherwise the weight of an entry for that key |
| `Registry.CriteriaFor` | nos.py:123-358 | the registry lookup succeeds exactly for the three study types and fails with `UnknownStudyType` of the given string otherwise |
| `Registry.CohortCriteria` | nos.py:124-206 | Cohort domain names and criterion names are distinct, the flat criterion list is the three domains in order, and its only overridden criterion is the comparability entry |
| `Registry.CaseControlCriteria` | nos.py:207-286 | the same facts for Case-Control Studies |
| `Registry.CrossSectionalCriteria` | nos.py:287-357 | the same facts for Cross-Sectional Studies |
| `Registry.CohortShape` | nos.py:124-206 | Cohort Studies is well formed: answer keys equal star keys, weights 0 or 1, Selection with four criteria, Comparability holding exactly the `max_stars: 2` criterion, distinct names |
| `Registry.CaseControlShape` | nos.py:207-286 | the same shape for Case-Control Studies |
| `Registry.CrossSectionalShape` | nos.py:287-357 | the same shape for Cross-Sectional Studies |
| `Registry.RegistryWellFormed` | nos.py:123-358 | every study type of the registry has that shape |
| `Scoring.ComparabilityStars` | nos.py:372-376 | the override: 2 exactly for `additional_factor`, 1 exactly for `most_important`, 0 for anything else, never above 2 |
| `Scoring.CriterionStars` | nos.py:366-378 | an unanswered criterion or an answer outside the star table adds 0; on a well-formed criterion the stars lie between 0 and 1, or 2 for the overridden one |
| `Scoring.UnrecognisedAnswerIgnored` | nos.py:367-369 | answering a criterion with a key its star table lacks scores exactly as leaving it unanswered |
| `Scoring.QualityRating` | nos.py:382-399 | Cohort and Case-Control: Good iff total ≥ 7, Fair iff 5–6, Poor iff ≤ 4; any other type string: Good iff ≥ 6, Fair iff 4–5, Poor iff ≤ 3 |
| `Scoring.QualityMonotone` | nos.py:382-399 | more stars never give a lower tier |
| `Scoring.LabelsDistinct` | nos.py:385-399 | the three tier labels are pairwise different, so a label identifies its tier |
| `Scoring.DomainsAddUpToTotal` | nos.py:360-380 | the per-domain stars, summed over the domains, equal the total |
| `Scoring.DomainCeiling` | nos.py:490-494 | a well-formed domain earns between 0 and its heatmap denominator (criterion count, or 2 for Comparability), and that denominator is positive |
| `Scoring.TotalAtMostMaxTotal` | nos.py:360-380 | a study type of well-formed domains earns between 0 and the sum of its domain ceilings |
| `Scoring.TotalBounds` | nos.py:385-393 | for any answer set, 0 ≤ total ≤ 9 for Cohort and Case-Control and ≤ 8 for Cross-Sectional |
| `Scoring.CalculateTotalStars` | nos.py:360-380 | fails with `UnknownStudyType` exactly for an unknown type; otherwise returns the sum of the criterion rule over every criterion of the type |
| `Form.AnswerDomain` | nos.py:587-606 | the inner form loop records the chosen key of each criterion of one domain and keeps the answers recorded before it |
| `Form.FormAnswers` | nos.py:581-606 | the form loop yields one entry per criterion name and no other key, as many entries as criteria, and each value is the chosen answer key |
| `Form.BuildAssessment` | nos.py:581-606 | for a registry study type, the answer set has exactly one entry per criterion and every value is one of that criterion's answer keys |
| `Form.OptionStars` | nos.py:591-597 | the answer keys in order, each paired with `stars.get(key, 0)`; on a well-formed criterion no answer is shown with more than one star |
| `Form.ScoredAsShown` | nos.py:594 | away from the overridden criterion, each criterion scores exactly the figure shown beside its chosen answer |
| `Form.ComparabilityShownVersusScored` | nos.py:372-376 | the comparability criterion scores the figure shown beside its answer, plus one exactly when the answer is `additional_factor` |
| `Form.TotalVersusShown` | nos.py:360-380 | for every registry study type and answer set, total = stars shown beside the chosen answers + (1 if comparability is `additional_factor` else 0) |
| `Views.FindDomain` | nos.py:472-474 | finds the domain of a given name, and finds none exactly when the type has no such domain |
| `Views.CollectDomains` | nos.py:456-460 | the collected set holds exactly the domain names of the listed studies' types |
| `Views.DomainShares` | nos.py:471-496 | per column: NotApplicable iff the type lacks the domain, otherwise (DomainStars, ceiling) with 0 ≤ stars ≤ ceiling and ceiling > 0, so the plain-0 cell never occurs |
| `Views.HeatmapRow` | nos.py:466-498 | one study's row, as above, or `UnknownStudyType` exactly for an unknown type |
| `Views.HeatmapMatrix` | nos.py:465-498 | one row per saved study, in list order, each as above |
| `Views.DetailDomainStars` | nos.py:670-690 | the detail loop's per-domain figures are exactly DomainStars of each domain and add up to the total |
| `Views.DetailView` | nos.py:667-690 | a saved study's detail figures are its per-domain stars and sum to its total, or `UnknownStudyType` exactly for an unknown type |
| `Studies.CountTier` | nos.py:706-708 | a tier count never exceeds the number of records |
| `Studies.TierCountsPartition` | nos.py:705-708 | the Good, Fair and Poor counts add up to the number of records |
| `Studies.SavedScoreInRange` | nos.py:617-618 | a record whose cached score the engine reproduces has 0 ≤ total ≤ its type's ceiling |
| `Studies.SavedScoresInRange` | nos.py:617-634 | every record of a list whose cached scores the engine reproduces has 0 ≤ total ≤ its type's ceiling |
| `Studies.StudyList.constructor` | nos.py:117-118 | the session starts with an empty list |
| `Studies.StudyList.Save` | nos.py:615-639 | empty name: nothing changes and the result is false; otherwise exactly one record is appended, holding the computed total and its tier, and every cached score stays reproducible |
| `Studies.StudyList.Delete` | nos.py:695 | removes exactly the record at `idx` and keeps the others in order |
| `Studies.StudyList.Clear` | nos.py:854 | the list becomes empty |
| `Studies.StudyList.Report` | nos.py:705-708 | the report's total is the number of records and its three tier counts add up to it; every counted record carries the tier of its total, which lies within its type's ceiling |

## Left out

- Streamlit pages, CSS, navigation, buttons, expanders, confirmation checkboxes and reruns are not modelled. Each model operation starts where the UI has decided to call it.
- Question texts and answer descriptions are not modelled, only answer keys. The stars printed as `★` characters are modelled as numbers.
- Chart construction, PNG export, and CSV and JSON export are rendering and I/O. They are not modelled.
- The heatmap's floating-point ratio `domain_stars / max_domain_stars` and the report's percentages are not modelled. A heatmap cell keeps the integer numerator and denominator, and `NaN` becomes `NotApplicable`.
- The sorting of the heatmap's domain columns is not modelled. `CollectDomains` returns the set, and the heatmap takes the column order as a parameter.
- `datetime.now()` is a clock. The assessment date is a parameter of `Save`.
- The publication-year widget's bounds and the `(total/9 stars)` message are UI text. They are not modelled.
- The hex colours of `get_quality_rating` are kept only as opaque constants (`Scoring.Color`).
- Studies.StudyList.Save: requires a registry study type. The form offers only the three types; with another string the source fails on the registry lookup before appending.
- Studies.StudyList.Delete: requires `idx` within the list. The delete button exists only for listed positions; out of range, `pop` would raise.
- Views.CollectDomains: requires every record to have a registry study type. Saved records always do, since `Save` only stores those.
- Views.HeatmapMatrix: requires every record to have a registry study type, for the same reason.
- Form.BuildAssessment: takes the radio choices as a map from criterion name to answer position, and requires a valid position for every criterion. The radio widget always returns one in range.
- `NOS Scale.py` is not part of this model. It is a differing version of the application whose registry already weighs `additional_factor` at 2 stars and labels it with two stars, so the shown-versus-scored mismatch proved for `nos.py` does not arise there.
- `setup_file.py` is not part of this model. It is packaging metadata.
