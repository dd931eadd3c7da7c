/** The session's list of saved study assessments: save appends, delete
    removes by position, clear empties it, and the report counts records per
    quality tier. */
module Studies {
  import opened Registry
  import opened Scoring

  /** One saved assessment with its metadata and the score cached at save
      time. The timestamp is supplied by the caller. */
  datatype StudyRecord = StudyRecord(
    studyName: string,
    authors: string,
    publicationYear: int,
    journal: string,
    doi: string,
    studyType: string,
    assessment: Assessment,
    totalStars: int,
    qualityRating: Tier,
    notes: string,
    assessmentDate: string)

  /** A record's cached score is what the engine computes again from its
      study type and answers. */
  predicate Reproducible(s: StudyRecord)
  {
    && s.studyType in StudyTypes
    && s.totalStars == TotalStars(CriteriaFor(s.studyType).value, s.assessment)
    && s.qualityRating == QualityRating(s.totalStars, s.studyType)
  }

  /** The number of records rated with tier `t`. */
  function CountTier(studies: seq<StudyRecord>, t: Tier): (n: nat)
    ensures n <= |studies|
  {
    if studies == [] then 0
    else (if studies[0].qualityRating == t then 1 else 0) + CountTier(studies[1..], t)
  }

  /** Every record has exactly one tier, so the three counts add up to the
      number of records. */
  lemma {:induction false} TierCountsPartition(studies: seq<StudyRecord>)
    ensures CountTier(studies, Good) + CountTier(studies, Fair) + CountTier(studies, Poor) == |studies|
  {
    if studies != [] {
      TierCountsPartition(studies[1..]);
    }
  }

  /** A saved score lies within its study type's range. */
  lemma SavedScoreInRange(s: StudyRecord)
    requires Reproducible(s)
    ensures 0 <= s.totalStars <= MaxStars(s.studyType)
  {
    TotalBounds(s.studyType, s.assessment);
  }

  /** Every record of a list of reproducible records has a score within its
      type's range. */
  lemma SavedScoresInRange(studies: seq<StudyRecord>)
    requires forall k :: 0 <= k < |studies| ==> Reproducible(studies[k])
    ensures forall k :: 0 <= k < |studies| ==> 0 <= studies[k].totalStars <= MaxStars(studies[k].studyType)
  {
    forall k | 0 <= k < |studies|
      ensures 0 <= studies[k].totalStars <= MaxStars(studies[k].studyType)
    {
      SavedScoreInRange(studies[k]);
    }
  }

  /** The report's summary figures. */
  datatype Summary = Summary(total: nat, good: nat, fair: nat, poor: nat)

  class StudyList {
    var studies: seq<StudyRecord>

    /** Every cached score can be reproduced by the engine. */
    ghost predicate Valid()
      reads this
    {
      forall k :: 0 <= k < |studies| ==> Reproducible(studies[k])
    }

    constructor ()
      ensures Valid() && studies == []
    {
      studies := [];
    }

    /** Saving a submitted form: with a non-empty study name, score the
        answers and append one record; with an empty name, change nothing. */
    method Save(studyName: string, authors: string, publicationYear: int, journal: string, doi: string,
                studyType: string, assessment: Assessment, notes: string, assessmentDate: string)
      returns (saved: bool)
      requires Valid()
      requires studyType in StudyTypes
      modifies this
      ensures Valid()
      ensures saved <==> studyName != ""
      ensures !saved ==> studies == old(studies)
      ensures saved ==>
        var total := TotalStars(CriteriaFor(studyType).value, assessment);
        studies == old(studies) + [StudyRecord(studyName, authors, publicationYear, journal, doi, studyType,
                                               assessment, total, QualityRating(total, studyType), notes, assessmentDate)]
    {
      if studyName == "" {
        return false;
      }
      var r := CalculateTotalStars(assessment, studyType);
      var totalStars := r.value;
      var qualityRating := QualityRating(totalStars, studyType);
      var record := StudyRecord(studyName, authors, publicationYear, journal, doi, studyType,
                                assessment, totalStars, qualityRating, notes, assessmentDate);
      studies := studies + [record];
      return true;
    }

    /** `pop(idx)`: removes the record at `idx`, keeping the others in order. */
    method Delete(idx: nat)
      requires Valid()
      requires idx < |studies|
      modifies this
      ensures Valid()
      ensures studies == old(studies[..idx]) + old(studies[idx + 1..])
      ensures |studies| == |old(studies)| - 1
    {
      studies := studies[..idx] + studies[idx + 1..];
    }

    /** Removes every record. */
    method Clear()
      requires Valid()
      modifies this
      ensures Valid() && studies == []
    {
      studies := [];
    }

    /** The report's figures: the number of records and how many are rated
        Good, Fair and Poor; the three counts add up to the number of records,
        and each counted record is rated by its total, which lies within its
        study type's ceiling. */
    function Report(): (r: Summary)
      requires Valid()
      reads this
      ensures r.total == |studies|
      ensures r.good + r.fair + r.poor == r.total
      ensures forall k :: 0 <= k < |studies| ==>
        && 0 <= studies[k].totalStars <= MaxStars(studies[k].studyType)
        && studies[k].qualityRating == QualityRating(studies[k].totalStars, studies[k].studyType)
    {
      TierCountsPartition(studies);
      SavedScoresInRange(studies);
      Summary(|studies|, CountTier(studies, Good), CountTier(studies, Fair), CountTier(studies, Poor))
    }
  }
}
