/**
 * The computing part of `main` (lines 367-394): keep the parsed records of
 * the requested spec version, score each, run the speed pass over all of
 * them, and produce one comparison report per cohort.
 */
module Pipeline {
  import opened Values
  import opened Scoring
  import opened Records
  import opened Cohorts
  import opened Speed
  import opened Report

  /**
   * The `--spec-version` filter: no filter (or an empty one) keeps every
   * record, otherwise only the records of that spec reference are kept.
   */
  predicate Kept(r: Record, specVersion: Option<string>)
  {
    specVersion.None? || specVersion.value == "" || r.identity.specReference == specVersion.value
  }

  /** The records that parsed and pass the filter, in file order. */
  function Selected(parsed: seq<Option<Record>>, specVersion: Option<string>): (rs: seq<Record>)
    ensures |rs| <= |parsed|
    ensures forall j :: 0 <= j < |rs| ==> Kept(rs[j], specVersion)
  {
    if |parsed| == 0 then []
    else
      var last := parsed[|parsed| - 1];
      Selected(parsed[..|parsed| - 1], specVersion) + (if last.Some? && Kept(last.value, specVersion) then [last.value] else [])
  }

  /** Every record that parsed. */
  function ParsedRecords(parsed: seq<Option<Record>>): set<Record>
  {
    set i | 0 <= i < |parsed| && parsed[i].Some? :: parsed[i].value
  }

  /** A record is selected exactly when it parsed and passes the filter. */
  lemma {:induction false} SelectedMembers(parsed: seq<Option<Record>>, specVersion: Option<string>, r: Record)
    ensures r in Selected(parsed, specVersion) <==> r in ParsedRecords(parsed) && Kept(r, specVersion)
  {
    if |parsed| > 0 {
      var init := parsed[..|parsed| - 1];
      SelectedMembers(init, specVersion, r);
      assert ParsedRecords(parsed) == ParsedRecords(init) + ParsedRecords(parsed[|parsed| - 1..]) by {
        assert forall i :: 0 <= i < |init| ==> parsed[i] == init[i];
      }
    }
  }

  /** Without a filter every parsed record is kept, in order, and nothing else. */
  lemma {:induction false} UnfilteredKeepsAll(parsed: seq<Option<Record>>)
    requires forall i :: 0 <= i < |parsed| ==> parsed[i].Some?
    ensures |Selected(parsed, None)| == |parsed|
    ensures forall i :: 0 <= i < |parsed| ==> Selected(parsed, None)[i] == parsed[i].value
    ensures Selected(parsed, Some("")) == Selected(parsed, None)
  {
    if |parsed| > 0 {
      UnfilteredKeepsAll(parsed[..|parsed| - 1]);
    }
  }

  lemma SelectedSnoc(parsed: seq<Option<Record>>, p: Option<Record>, specVersion: Option<string>)
    ensures Selected(parsed + [p], specVersion)
      == Selected(parsed, specVersion) + (if p.Some? && Kept(p.value, specVersion) then [p.value] else [])
  {
    assert (parsed + [p])[..|parsed|] == parsed;
  }

  /** The record carries the scores of `calculate_scores` for its metrics. */
  ghost predicate Scored(r: Record)
    reads r
  {
    r.scores == CalculateScores(r.metrics)
  }

  /** Lines 378-379: the record's scores are replaced by those of its metrics. */
  method ScoreRecord(record: Record)
    modifies record
    ensures Scored(record)
    ensures record.normalized == old(record.normalized)
  {
    record.scores := CalculateScores(record.metrics);
  }

  /**
   * The parsing loop (lines 368-380): each parsed record that passes the
   * filter gets the scores of `calculate_scores` and is kept.
   */
  method ScoreResults(parsed: seq<Option<Record>>, specVersion: Option<string>) returns (results: seq<Record>)
    modifies ParsedRecords(parsed)
    ensures results == Selected(parsed, specVersion)
    ensures forall r :: r in results ==> Scored(r)
    ensures forall r :: r in ParsedRecords(parsed) && r !in results ==> r.scores == old(r.scores)
    ensures forall r :: r in ParsedRecords(parsed) ==> r.normalized == old(r.normalized)
  {
    results := [];
    ghost var all := ParsedRecords(parsed);
    for i := 0 to |parsed|
      invariant results == Selected(parsed[..i], specVersion)
      invariant forall r :: r in results ==> r in all
      invariant forall r :: r in all ==>
        r.normalized == old(r.normalized) && if r in results then Scored(r) else r.scores == old(r.scores)
    {
      var result := parsed[i];
      assert parsed[..i + 1] == parsed[..i] + [result];
      SelectedSnoc(parsed[..i], result, specVersion);
      if result.Some? && Kept(result.value, specVersion) {
        var record := result.value;
        assert record in all;
        ScoreRecord(record);
        results := results + [record];
      }
    }
    assert parsed[..|parsed|] == parsed;
  }

  /** The report loop (lines 389-394): one comparison report per cohort, in no particular order. */
  method ReportAll(results: seq<Record>) returns (reports: map<CohortKey, ComparisonReport>)
    ensures reports.Keys == CohortKeys(results)
    ensures forall k :: k in reports ==> IsComparisonReport(reports[k], k, Cohort(results, k))
  {
    var grouped := GroupResults(results);
    reports := map[];
    var pending := grouped.Keys;
    while pending != {}
      invariant pending <= grouped.Keys
      invariant reports.Keys == grouped.Keys - pending
      invariant forall k :: k in reports ==> IsComparisonReport(reports[k], k, Cohort(results, k))
      decreases pending
    {
      var groupKey :| groupKey in pending;
      var report := GenerateComparisonReport(groupKey, grouped[groupKey]);
      reports := reports[groupKey := report];
      pending := pending - {groupKey};
    }
  }

  /**
   * The whole computation (lines 367-394). Every kept record ends with the
   * scores of `calculate_scores` except for S, which the speed pass fills in
   * from its cohort; overall is never recomputed. Each cohort gets its
   * report; without any kept record there are none.
   */
  method Aggregate(parsed: seq<Option<Record>>, specVersion: Option<string>)
    returns (results: seq<Record>, reports: map<CohortKey, ComparisonReport>)
    modifies ParsedRecords(parsed)
    ensures results == Selected(parsed, specVersion)
    ensures forall r :: r in ParsedRecords(parsed) && r in results ==>
      r.normalized == Renormalized(old(r.normalized), r.metrics, Cohort(results, Key(r)))
    ensures forall r :: r in results ==> r.scores == WithSpeed(CalculateScores(r.metrics), r.normalized)
    ensures forall r :: r in results ==> r.scores.(s := Unknown) == CalculateScores(r.metrics)
    ensures forall r :: r in ParsedRecords(parsed) && r !in results ==>
      r.scores == old(r.scores) && r.normalized == old(r.normalized)
    ensures reports.Keys == CohortKeys(results)
    ensures forall k :: k in reports ==> IsComparisonReport(reports[k], k, Cohort(results, k))
  {
    results := ScoreResults(parsed, specVersion);
    if |results| == 0 {
      reports := map[];
      return;
    }
    forall r | r in results
      ensures r in ParsedRecords(parsed)
    {
      SelectedMembers(parsed, specVersion, r);
    }
    label scored:
    CalculateSpeedScores(results);
    assert forall r :: r in ParsedRecords(parsed) && r in results ==> old@scored(r.normalized) == old(r.normalized);
    reports := ReportAll(results);
  }
}
