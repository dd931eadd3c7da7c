/** The assessment form: the answer set built from one radio choice per
    criterion, and the stars the form displays beside each answer. */
module Form {
  import opened Registry
  import opened Scoring

  /** The radio choices of a submitted form: criterion name to the position
      of the chosen answer, as the widgets keyed by criterion name hold them. */
  type Picks = map<string, nat>

  /** Every criterion of the study type has a radio choice within its list of
      answers. */
  predicate PicksCover(cs: seq<Criterion>, picks: Picks)
  {
    forall k :: 0 <= k < |cs| ==> cs[k].name in picks && picks[cs[k].name] < |cs[k].options|
  }

  lemma {:induction false} DistinctCard(s: seq<string>)
    requires Distinct(s)
    ensures |set x | x in s| == |s|
  {
    if s != [] {
      assert (set x | x in s) == {s[0]} + set x | x in s[1..];
      forall p | 0 <= p < |s[1..]|
        ensures s[1..][p] != s[0]
      {
        assert s[1..][p] == s[p + 1];
      }
      assert s[0] !in set x | x in s[1..];
      DistinctCard(s[1..]);
    }
  }

  /** The first `q` criteria of `cs` are answered with their chosen keys,
      and nothing else is. */
  ghost predicate AnsweredUpTo(cs: seq<Criterion>, picks: Picks, q: nat, assessment: Assessment)
    requires q <= |cs|
    requires PicksCover(cs, picks)
  {
    && (forall n :: n in assessment <==> n in Names(cs)[..q])
    && forall m :: 0 <= m < q ==>
         cs[m].name in assessment && assessment[cs[m].name] == cs[m].options[picks[cs[m].name]]
  }

  /** Recording the answer of criterion `q` keeps the earlier answers, since
      criterion names are distinct. */
  lemma AnswerStep(cs: seq<Criterion>, picks: Picks, q: nat, assessment: Assessment)
    requires q < |cs|
    requires Distinct(Names(cs))
    requires PicksCover(cs, picks)
    requires AnsweredUpTo(cs, picks, q, assessment)
    ensures AnsweredUpTo(cs, picks, q + 1, assessment[cs[q].name := cs[q].options[picks[cs[q].name]]])
  {
    var names := Names(cs);
    forall m | 0 <= m < q
      ensures cs[m].name != cs[q].name
    {
      assert names[m] == cs[m].name && names[q] == cs[q].name;
    }
    assert names[..q + 1] == names[..q] + [cs[q].name];
  }

  /** An answer set keyed by exactly the distinct names has one entry each. */
  lemma KeysCount(assessment: Assessment, names: seq<string>)
    requires Distinct(names)
    requires forall n :: n in assessment <==> n in names
    ensures |assessment| == |names|
  {
    assert assessment.Keys == set n | n in names;
    DistinctCard(names);
  }

  /** Moving past domain `i`: its criteria follow those of the earlier
      domains in the flat list. */
  lemma DomainPrefixStep(ds: seq<Domain>, i: nat)
    requires i < |ds|
    ensures AllCriteria(ds[..i + 1]) == AllCriteria(ds[..i]) + ds[i].criteria
    ensures AllCriteria(ds[i..]) == ds[i].criteria + AllCriteria(ds[i + 1..])
  {
    AllCriteriaAppend(ds[..i], [ds[i]]);
    assert ds[..i + 1] == ds[..i] + [ds[i]];
    assert AllCriteria([ds[i]]) == ds[i].criteria;
  }

  /** The form's inner loop: the radio choices of one domain, whose criteria
      sit at `start` in the flat list `cs`. */
  method AnswerDomain(ghost cs: seq<Criterion>, picks: Picks, ghost start: nat, domain: seq<Criterion>,
                      assessment: Assessment)
    returns (answered: Assessment)
    requires start + |domain| <= |cs|
    requires cs[start..start + |domain|] == domain
    requires Distinct(Names(cs))
    requires PicksCover(cs, picks)
    requires AnsweredUpTo(cs, picks, start, assessment)
    ensures AnsweredUpTo(cs, picks, start + |domain|, answered)
  {
    answered := assessment;
    ghost var q := start;
    var j := 0;
    while j < |domain|
      invariant 0 <= j <= |domain|
      invariant q == start + j
      invariant AnsweredUpTo(cs, picks, q, answered)
    {
      var c := domain[j];
      assert cs[start..start + |domain|][j] == cs[q];
      AnswerStep(cs, picks, q, answered);
      answered := answered[c.name := c.options[picks[c.name]]];
      j := j + 1;
      q := q + 1;
    }
  }

  /** The form's loop over the domains and criteria of a study type whose
      criterion names are distinct: one entry per criterion, holding the key
      of the chosen answer. */
  method FormAnswers(ds: seq<Domain>, picks: Picks) returns (assessment: Assessment)
    requires Distinct(Names(AllCriteria(ds)))
    requires PicksCover(AllCriteria(ds), picks)
    ensures forall n :: n in assessment <==> n in Names(AllCriteria(ds))
    ensures |assessment| == |AllCriteria(ds)|
    ensures forall k :: 0 <= k < |AllCriteria(ds)| ==>
      var c := AllCriteria(ds)[k];
      c.name in assessment && assessment[c.name] == c.options[picks[c.name]]
  {
    ghost var cs := AllCriteria(ds);
    ghost var q := 0;
    assessment := map[];
    var i := 0;
    while i < |ds|
      invariant 0 <= i <= |ds|
      invariant cs == AllCriteria(ds[..i]) + AllCriteria(ds[i..])
      invariant q == |AllCriteria(ds[..i])|
      invariant AnsweredUpTo(cs, picks, q, assessment)
    {
      DomainPrefixStep(ds, i);
      assessment := AnswerDomain(cs, picks, q, ds[i].criteria, assessment);
      q := q + |ds[i].criteria|;
      i := i + 1;
    }
    assert ds[..i] == ds;
    assert Names(cs)[..q] == Names(cs);
    KeysCount(assessment, Names(cs));
  }

  /** Building the answer set for the chosen study type: exactly one entry
      per criterion, and each value is one of that criterion's answer keys. */
  method BuildAssessment(studyType: string, picks: Picks) returns (assessment: Assessment)
    requires studyType in StudyTypes
    requires PicksCover(AllCriteria(CriteriaFor(studyType).value), picks)
    ensures var cs := AllCriteria(CriteriaFor(studyType).value);
      && (forall n :: n in assessment <==> n in Names(cs))
      && |assessment| == |cs|
      && forall k :: 0 <= k < |cs| ==>
           && cs[k].name in assessment
           && assessment[cs[k].name] == cs[k].options[picks[cs[k].name]]
           && assessment[cs[k].name] in cs[k].options
  {
    RegistryWellFormed(studyType);
    assessment := FormAnswers(CriteriaFor(studyType).value, picks);
  }

  /** The star figure the form prints beside answer `key` of a criterion:
      the table weight, or 0 for a key the table lacks. */
  function ShownStars(c: Criterion, key: string): int
  {
    StarsGet(c.stars, key, 0)
  }

  /** The form's loop over one criterion's answers: the answer keys in
      order, each with the star figure printed beside it. No answer of a
      well-formed criterion is shown with more than one star, the
      comparability answers included. */
  method OptionStars(c: Criterion) returns (keys: seq<string>, shown: seq<int>)
    ensures keys == c.options
    ensures |shown| == |keys|
    ensures forall k :: 0 <= k < |keys| ==> shown[k] == ShownStars(c, keys[k])
    ensures WellFormedCriterion(c) ==> forall k :: 0 <= k < |shown| ==> 0 <= shown[k] <= 1
  {
    keys, shown := [], [];
    var k := 0;
    while k < |c.options|
      invariant 0 <= k <= |c.options|
      invariant keys == c.options[..k]
      invariant |shown| == k
      invariant forall m :: 0 <= m < k ==> shown[m] == ShownStars(c, keys[m])
    {
      var key := c.options[k];
      var stars := StarsGet(c.stars, key, 0);
      shown := shown + [stars];
      keys := keys + [key];
      k := k + 1;
    }
    assert c.options[..k] == c.options;
  }

  /** The figures shown beside the chosen answers of `cs`, added up. */
  function ShownOver(cs: seq<Criterion>, a: Assessment): int
  {
    if cs == [] then 0
    else (if cs[0].name in a then ShownStars(cs[0], a[cs[0].name]) else 0) + ShownOver(cs[1..], a)
  }

  /** The star the score adds beyond what the form shows: one, when the
      comparability answer is `additional_factor`. */
  function ExtraStar(a: Assessment): nat
  {
    if ComparabilityName in a && a[ComparabilityName] == AdditionalFactor then 1 else 0
  }

  lemma {:induction false} ShownOverAppend(xs: seq<Criterion>, ys: seq<Criterion>, a: Assessment)
    ensures ShownOver(xs + ys, a) == ShownOver(xs, a) + ShownOver(ys, a)
  {
    if xs == [] {
      assert xs + ys == ys;
    } else {
      assert (xs + ys)[1..] == xs[1..] + ys;
      ShownOverAppend(xs[1..], ys, a);
    }
  }

  /** Away from the override, the score of every criterion is the figure
      the form shows beside its chosen answer. */
  lemma {:induction false} ScoredAsShown(cs: seq<Criterion>, a: Assessment)
    requires forall k :: 0 <= k < |cs| ==> !Overridden(cs[k])
    ensures StarsOver(cs, a) == ShownOver(cs, a)
  {
    if cs != [] {
      ScoredAsShown(cs[1..], a);
    }
  }

  /** The comparability criterion is shown with one star for both
      `most_important` and `additional_factor`, but scored 1 and 2. */
  lemma ComparabilityShownVersusScored(a: Assessment)
    ensures ShownOver([Comparability], a) == (if ComparabilityName in a then ShownStars(Comparability, a[ComparabilityName]) else 0)
    ensures StarsOver([Comparability], a) == ShownOver([Comparability], a) + ExtraStar(a)
  {
    assert StarKeys(Comparability.stars) == [MostImportant, AdditionalFactor, "no_control"];
  }

  /** The mismatch between form and score: the total of any answer set for a
      registry study type is the sum of the stars shown beside the chosen
      answers, plus one when comparability is answered `additional_factor`. */
  lemma TotalVersusShown(studyType: string, a: Assessment)
    requires studyType in StudyTypes
    ensures CriteriaFor(studyType).Ok?
    ensures TotalStars(CriteriaFor(studyType).value, a) == ShownOver(AllCriteria(CriteriaFor(studyType).value), a) + ExtraStar(a)
  {
    RegistryWellFormed(studyType);
    var ds := CriteriaFor(studyType).value;
    assert DomainNames(ds)[1] == ComparabilityDomain && DomainNames(ds)[2] == ds[2].name;
    assert WellFormedDomain(ds[0]) && WellFormedDomain(ds[2]);
    ScoredAsShown(ds[0].criteria, a);
    ScoredAsShown(ds[2].criteria, a);
    ComparabilityShownVersusScored(a);
    StarsOverAppend(ds[0].criteria, ds[1].criteria, a);
    StarsOverAppend(ds[0].criteria + ds[1].criteria, ds[2].criteria, a);
    ShownOverAppend(ds[0].criteria, ds[1].criteria, a);
    ShownOverAppend(ds[0].criteria + ds[1].criteria, ds[2].criteria, a);
  }
}
