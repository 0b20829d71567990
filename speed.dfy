/**
 * The speed normalizer (`calculate_speed_scores`). Within each cohort the
 * numeric TTFR and TTFC times are min-max normalized to 0..100, the fastest
 * time scoring highest; the normalized scores are written onto the records
 * as their `_ttfr_score` / `_ttfc_score` entries, and S = 0.4 TTFR + 0.6 TTFC
 * is written into the scores of every record that holds both.
 */
module Speed {
  import opened Values
  import opened Scoring
  import opened Records
  import opened Cohorts

  /** The numeric times of `series` among `rs`, in order. */
  function Times(rs: seq<Record>, series: Series): (times: seq<real>)
    ensures |times| <= |rs|
  {
    if |rs| == 0 then []
    else
      var last := rs[|rs| - 1];
      Times(rs[..|rs| - 1], series) + (if Minutes(last.metrics, series).Num? then [Minutes(last.metrics, series).x] else [])
  }

  /**
   * Min-max normalization of time `t` between the cohort's fastest time `lo`
   * and slowest time `hi`. Division happens only when `hi > lo`; when all
   * times are tied every time scores 100.
   */
  function Normalize(t: real, lo: real, hi: real): real
  {
    if hi > lo then 100.0 * (1.0 - (t - lo) / (hi - lo)) else 100.0
  }

  /**
   * The normalized score of a record whose time is `time`, among the numeric
   * times of its cohort: none unless its own time is a number and the
   * cohort has at least two numeric times.
   */
  function SeriesScore(time: Val, times: seq<real>): (score: Option<real>)
    ensures score.Some? <==> |times| > 1 && time.Num?
  {
    if |times| > 1 && time.Num? then Some(Round1(Normalize(time.x, SeqMin(times), SeqMax(times)))) else None
  }

  /** Writes a normalized score, when there is one, over the previous entry. */
  function Assign(n: map<Series, real>, series: Series, score: Option<real>): map<Series, real>
  {
    match score
    case Some(v) => n[series := v]
    case None => n
  }

  /** The `_ttfr_score` / `_ttfc_score` entries of a record after its cohort `peers` is normalized. */
  function Renormalized(n: map<Series, real>, m: Metrics, peers: seq<Record>): map<Series, real>
  {
    var afterTtfr := Assign(n, Ttfr, SeriesScore(m.ttfr, Times(peers, Ttfr)));
    Assign(afterTtfr, Ttfc, SeriesScore(m.ttfc, Times(peers, Ttfc)))
  }

  /** S = 0.4 TTFR + 0.6 TTFC, for a record holding both normalized scores. */
  function CombinedSpeed(n: map<Series, real>): (speed: Option<real>)
    ensures speed.Some? <==> Ttfr in n && Ttfc in n
  {
    if Ttfr in n && Ttfc in n then Some(Round1(0.4 * n[Ttfr] + 0.6 * n[Ttfc])) else None
  }

  /** The score set with S replaced by the combined speed, when there is one. */
  function WithSpeed(scores: ScoreSet, n: map<Series, real>): (r: ScoreSet)
    ensures r.(s := scores.s) == scores
    ensures r.s == scores.s || (Ttfr in n && Ttfc in n)
  {
    match CombinedSpeed(n)
    case Some(v) => scores.(s := Known(v))
    case None => scores
  }

  /** The times in a list of (record, minutes) pairs. */
  function TimesOf(timed: seq<(Record, real)>): (times: seq<real>)
    ensures |times| == |timed|
  {
    if |timed| == 0 then [] else TimesOf(timed[..|timed| - 1]) + [timed[|timed| - 1].1]
  }

  /** The records in a list of (record, minutes) pairs. */
  function Holders(timed: seq<(Record, real)>): set<Record>
  {
    set j | 0 <= j < |timed| :: timed[j].0
  }

  /** Each pair holds the record's own numeric time for `series`. */
  predicate Consistent(timed: seq<(Record, real)>, series: Series)
  {
    forall j :: 0 <= j < |timed| ==> Minutes(timed[j].0.metrics, series) == Num(timed[j].1)
  }

  lemma HoldersSnoc(timed: seq<(Record, real)>, p: (Record, real))
    ensures Holders(timed + [p]) == Holders(timed) + {p.0}
  {
    var timed' := timed + [p];
    forall r | r in Holders(timed')
      ensures r in Holders(timed) + {p.0}
    {
      var j :| 0 <= j < |timed'| && timed'[j].0 == r;
      if j < |timed| {
        assert timed'[j] == timed[j];
      }
    }
    forall r | r in Holders(timed) + {p.0}
      ensures r in Holders(timed')
    {
      if r == p.0 {
        assert timed'[|timed|].0 == r;
      } else {
        var j :| 0 <= j < |timed| && timed[j].0 == r;
        assert timed'[j].0 == r;
      }
    }
  }

  lemma TimesSnoc(rs: seq<Record>, r: Record, series: Series)
    ensures Times(rs + [r], series)
      == Times(rs, series) + (if Minutes(r.metrics, series).Num? then [Minutes(r.metrics, series).x] else [])
  {
    assert (rs + [r])[..|rs|] == rs;
  }

  /**
   * One series of one cohort (lines 188-211): when at least two records
   * have a numeric time, every one of them gets its normalized score.
   */
  method ScoreSeries(timed: seq<(Record, real)>, series: Series)
    requires Consistent(timed, series)
    modifies Holders(timed)
    ensures forall r :: r in Holders(timed) ==>
      r.normalized == Assign(old(r.normalized), series, SeriesScore(Minutes(r.metrics, series), TimesOf(timed)))
    ensures forall r :: r in Holders(timed) ==> r.scores == old(r.scores)
  {
    if |timed| > 1 {
      var values := TimesOf(timed);
      var lo, hi := SeqMin(values), SeqMax(values);
      for j := 0 to |timed|
        invariant forall r :: r in Holders(timed) ==> r.scores == old(r.scores)
        invariant forall r :: r in Holders(timed) ==>
          r.normalized == if r in Holders(timed[..j])
                          then old(r.normalized)[series := Round1(Normalize(Minutes(r.metrics, series).x, lo, hi))]
                          else old(r.normalized)
      {
        var (result, t) := timed[j];
        var score := if hi > lo then 100.0 * (1.0 - (t - lo) / (hi - lo)) else 100.0;
        assert Minutes(result.metrics, series).x == t && score == Normalize(t, lo, hi);
        result.normalized := result.normalized[series := Round1(score)];
        assert timed[..j + 1] == timed[..j] + [timed[j]];
        HoldersSnoc(timed[..j], timed[j]);
      }
      assert timed[..|timed|] == timed;
    }
  }

  /**
   * `timed` is the collection of `series` over `rs`: the pairs agree with
   * the records' own times, list the cohort's numeric times in order, and
   * hold exactly the records whose time is a number.
   */
  predicate Collected(timed: seq<(Record, real)>, rs: seq<Record>, series: Series)
  {
    && Consistent(timed, series)
    && TimesOf(timed) == Times(rs, series)
    && Holders(timed) == set r | r in rs && Minutes(r.metrics, series).Num?
  }

  /** One step of the collection loop keeps `Collected`. */
  lemma CollectStep(timed: seq<(Record, real)>, rs: seq<Record>, r: Record, series: Series)
    requires Collected(timed, rs, series)
    ensures Minutes(r.metrics, series).Num? ==>
      Collected(timed + [(r, Minutes(r.metrics, series).x)], rs + [r], series)
    ensures !Minutes(r.metrics, series).Num? ==> Collected(timed, rs + [r], series)
  {
    TimesSnoc(rs, r, series);
    if Minutes(r.metrics, series).Num? {
      HoldersSnoc(timed, (r, Minutes(r.metrics, series).x));
    }
  }

  /**
   * The collection loop of one cohort (lines 175-185): the records holding a
   * numeric time of each series, paired with that time, in cohort order.
   */
  method CollectTimes(cohort: seq<Record>) returns (ttfrTimes: seq<(Record, real)>, ttfcTimes: seq<(Record, real)>)
    ensures Collected(ttfrTimes, cohort, Ttfr) && Collected(ttfcTimes, cohort, Ttfc)
  {
    ttfrTimes, ttfcTimes := [], [];
    for i := 0 to |cohort|
      invariant Collected(ttfrTimes, cohort[..i], Ttfr) && Collected(ttfcTimes, cohort[..i], Ttfc)
    {
      var result := cohort[i];
      var ttfr := result.metrics.ttfr;
      var ttfc := result.metrics.ttfc;
      assert cohort[..i + 1] == cohort[..i] + [result];
      CollectStep(ttfrTimes, cohort[..i], result, Ttfr);
      CollectStep(ttfcTimes, cohort[..i], result, Ttfc);
      if ttfr.Num? {
        ttfrTimes := ttfrTimes + [(result, ttfr.x)];
      }
      if ttfc.Num? {
        ttfcTimes := ttfcTimes + [(result, ttfc.x)];
      }
    }
    assert cohort[..|cohort|] == cohort;
  }

  /**
   * The combining loop of one cohort (lines 213-217): every record holding
   * both normalized scores gets S; nothing else changes.
   */
  method CombineSpeeds(cohort: seq<Record>)
    modifies set r | r in cohort
    ensures forall r :: r in cohort ==> r.normalized == old(r.normalized)
    ensures forall r :: r in cohort ==> r.scores == WithSpeed(old(r.scores), r.normalized)
  {
    for i := 0 to |cohort|
      invariant forall r :: r in cohort ==> r.normalized == old(r.normalized)
      invariant forall r :: r in cohort ==>
        r.scores == if r in cohort[..i] then WithSpeed(old(r.scores), r.normalized) else old(r.scores)
    {
      var result := cohort[i];
      if Ttfr in result.normalized && Ttfc in result.normalized {
        var speed := 0.4 * result.normalized[Ttfr] + 0.6 * result.normalized[Ttfc];
        result.scores := result.scores.(s := Known(Round1(speed)));
      }
      assert cohort[..i + 1] == cohort[..i] + [result];
    }
    assert cohort[..|cohort|] == cohort;
  }

  /**
   * One cohort (lines 175-217): collect the numeric times of both series,
   * normalize each series, then combine the two scores into S.
   */
  method NormalizeCohort(cohort: seq<Record>)
    modifies set r | r in cohort
    ensures forall r :: r in cohort ==> r.normalized == Renormalized(old(r.normalized), r.metrics, cohort)
    ensures forall r :: r in cohort ==> r.scores == WithSpeed(old(r.scores), r.normalized)
  {
    var ttfrTimes, ttfcTimes := CollectTimes(cohort);
    ScoreSeries(ttfrTimes, Ttfr);
    ScoreSeries(ttfcTimes, Ttfc);
    CombineSpeeds(cohort);
  }

  /**
   * The whole speed pass (lines 162-217): every record's normalized scores
   * and S are those of its own cohort; every other score field, overall
   * included, is left as it was.
   */
  method CalculateSpeedScores(results: seq<Record>)
    modifies set r | r in results
    ensures forall r :: r in results ==>
      r.normalized == Renormalized(old(r.normalized), r.metrics, Cohort(results, Key(r)))
    ensures forall r :: r in results ==> r.scores == WithSpeed(old(r.scores), r.normalized)
  {
    var cohorts := GroupResults(results);
    forall r | r in results
      ensures Key(r) in cohorts.Keys
    {
      var j :| 0 <= j < |results| && results[j] == r;
      assert Key(results[j]) in CohortKeys(results);
    }
    NormalizeCohorts(results, cohorts);
  }

  /** The loop over the cohorts (lines 172-217), in no particular order. */
  method NormalizeCohorts(results: seq<Record>, cohorts: map<CohortKey, seq<Record>>)
    requires forall r :: r in results ==> Key(r) in cohorts
    requires forall k :: k in cohorts ==> cohorts[k] == Cohort(results, k)
    modifies set r | r in results
    ensures forall r :: r in results ==>
      r.normalized == Renormalized(old(r.normalized), r.metrics, Cohort(results, Key(r)))
    ensures forall r :: r in results ==> r.scores == WithSpeed(old(r.scores), r.normalized)
  {
    var pending := cohorts.Keys;
    while pending != {}
      invariant pending <= cohorts.Keys
      invariant forall r :: r in results && Key(r) !in pending ==>
        r.normalized == Renormalized(old(r.normalized), r.metrics, Cohort(results, Key(r)))
      invariant forall r :: r in results && Key(r) !in pending ==>
        r.scores == WithSpeed(old(r.scores), r.normalized)
      invariant forall r :: r in results && Key(r) in pending ==> r.normalized == old(r.normalized)
      invariant forall r :: r in results && Key(r) in pending ==> r.scores == old(r.scores)
      decreases pending
    {
      var key :| key in pending;
      NormalizeKey(results, cohorts[key], key);
      pending := pending - {key};
    }
  }

  /** The body of the cohort loop: normalize cohort `key` of `results`. */
  method NormalizeKey(results: seq<Record>, cohort: seq<Record>, key: CohortKey)
    requires cohort == Cohort(results, key)
    modifies set r | r in results && Key(r) == key
    ensures forall r :: r in results && Key(r) == key ==>
      r.normalized == Renormalized(old(r.normalized), r.metrics, Cohort(results, Key(r)))
    ensures forall r :: r in results && Key(r) == key ==> r.scores == WithSpeed(old(r.scores), r.normalized)
  {
    forall r | r in cohort
      ensures r in results && Key(r) == key
    {
      CohortMembers(results, key, r);
    }
    forall r | r in results && Key(r) == key
      ensures r in cohort
    {
      CohortMembers(results, key, r);
    }
    NormalizeCohort(cohort);
  }

  /** A time between the fastest and the slowest normalizes into 0..100. */
  lemma NormalizeBounds(t: real, lo: real, hi: real)
    requires lo <= t <= hi
    ensures 0.0 <= Normalize(t, lo, hi) <= 100.0
  {
    if hi > lo {
      var d := hi - lo;
      var q := (t - lo) / d;
      assert q * d == t - lo;
      assert 0.0 <= q <= 1.0;
    }
  }

  /** When the times differ, the fastest scores 100 and the slowest 0. */
  lemma NormalizeEndpoints(lo: real, hi: real)
    requires lo < hi
    ensures Normalize(lo, lo, hi) == 100.0 && Normalize(hi, lo, hi) == 0.0
  {
    assert (hi - lo) / (hi - lo) == 1.0;
  }

  /** Normalization reverses order: a slower time never scores higher. */
  lemma NormalizeAntitone(t1: real, t2: real, lo: real, hi: real)
    requires t1 <= t2
    ensures Normalize(t2, lo, hi) <= Normalize(t1, lo, hi)
  {
    if hi > lo {
      var d := hi - lo;
      var q1, q2 := (t1 - lo) / d, (t2 - lo) / d;
      assert q1 * d == t1 - lo && q2 * d == t2 - lo;
      assert (q2 - q1) * d == t2 - t1;
      assert q1 <= q2;
    }
  }

  /** The time of every record holding a numeric one is among its cohort's times. */
  lemma {:induction false} TimesMember(rs: seq<Record>, r: Record, series: Series)
    requires r in rs && Minutes(r.metrics, series).Num?
    ensures Minutes(r.metrics, series).x in Times(rs, series)
  {
    var init, last := rs[..|rs| - 1], rs[|rs| - 1];
    assert rs == init + [last];
    if r != last {
      TimesMember(init, r, series);
    }
  }

  /**
   * A series score is given exactly to numeric times in a series of at
   * least two, and then lies in 0..100.
   */
  lemma SeriesScoreInRange(time: Val, times: seq<real>)
    requires time.Num? ==> time.x in times
    ensures SeriesScore(time, times).Some? <==> |times| > 1 && time.Num?
    ensures SeriesScore(time, times).Some? ==> 0.0 <= SeriesScore(time, times).value <= 100.0
  {
    if |times| > 1 && time.Num? {
      NormalizeBounds(time.x, SeqMin(times), SeqMax(times));
      Round1Between(Normalize(time.x, SeqMin(times), SeqMax(times)), 0, 100);
    }
  }

  /** When the times of a series differ, the fastest gets 100 and the slowest 0. */
  lemma SeriesScoreBestWorst(times: seq<real>)
    requires |times| > 1 && SeqMin(times) < SeqMax(times)
    ensures SeriesScore(Num(SeqMin(times)), times) == Some(100.0)
    ensures SeriesScore(Num(SeqMax(times)), times) == Some(0.0)
  {
    NormalizeEndpoints(SeqMin(times), SeqMax(times));
    Round1Int(100);
    Round1Int(0);
  }

  /** In a series where every time is the same, every record scores 100. */
  lemma SeriesScoreTied(t: real, times: seq<real>)
    requires |times| > 1 && forall i :: 0 <= i < |times| ==> times[i] == t
    ensures SeriesScore(Num(t), times) == Some(100.0)
  {
    assert SeqMin(times) == t == SeqMax(times);
    Round1Int(100);
  }

  /** A faster time never gets a lower series score than a slower one. */
  lemma SeriesScoreOrder(t1: real, t2: real, times: seq<real>)
    requires |times| > 1 && t1 <= t2
    ensures SeriesScore(Num(t2), times).value <= SeriesScore(Num(t1), times).value
  {
    NormalizeAntitone(t1, t2, SeqMin(times), SeqMax(times));
    Round1Monotone(Normalize(t2, SeqMin(times), SeqMax(times)), Normalize(t1, SeqMin(times), SeqMax(times)));
  }

  /** Times 10, 20 and 30 minutes score 100, 50 and 0. */
  lemma SeriesScoreExample()
    ensures SeriesScore(Num(10.0), [10.0, 20.0, 30.0]) == Some(100.0)
    ensures SeriesScore(Num(20.0), [10.0, 20.0, 30.0]) == Some(50.0)
    ensures SeriesScore(Num(30.0), [10.0, 20.0, 30.0]) == Some(0.0)
  {
    var times := [10.0, 20.0, 30.0];
    assert SeqMin(times) == 10.0 && SeqMax(times) == 30.0;
    Round1Int(100);
    Round1Int(50);
    Round1Int(0);
  }

  /** A lone numeric time in its cohort gets no score at all. */
  lemma SeriesScoreSingle(t: real)
    ensures SeriesScore(Num(t), [t]) == None
  {
  }

  /** S weighs TTFR 0.4 and TTFC 0.6; with both scores in 0..100 so is S. */
  lemma CombinedSpeedInRange(n: map<Series, real>)
    requires forall series :: series in n ==> 0.0 <= n[series] <= 100.0
    ensures CombinedSpeed(n).Some? <==> Ttfr in n && Ttfc in n
    ensures CombinedSpeed(n).Some? ==> 0.0 <= CombinedSpeed(n).value <= 100.0
  {
    if Ttfr in n && Ttfc in n {
      Round1Between(0.4 * n[Ttfr] + 0.6 * n[Ttfc], 0, 100);
    }
  }

  /** TTFR score 80 and TTFC score 60 give S = 68. */
  lemma CombinedSpeedExample()
    ensures CombinedSpeed(map[Ttfr := 80.0, Ttfc := 60.0]) == Some(68.0)
  {
    assert 0.4 * 80.0 + 0.6 * 60.0 == 68.0;
    Round1Int(68);
  }

  /**
   * After the speed pass, a freshly scored record has S exactly when both of
   * its times are numbers and each series of its cohort has at least two;
   * S then lies in 0..100.
   */
  lemma SpeedKnownIff(r: Record, peers: seq<Record>)
    requires r in peers
    ensures var n := Renormalized(map[], r.metrics, peers);
      && (CombinedSpeed(n).Some? <==>
            r.metrics.ttfr.Num? && r.metrics.ttfc.Num? && |Times(peers, Ttfr)| > 1 && |Times(peers, Ttfc)| > 1)
      && (CombinedSpeed(n).Some? ==> 0.0 <= CombinedSpeed(n).value <= 100.0)
  {
    var m := r.metrics;
    if m.ttfr.Num? { TimesMember(peers, r, Ttfr); }
    if m.ttfc.Num? { TimesMember(peers, r, Ttfc); }
    SeriesScoreInRange(m.ttfr, Times(peers, Ttfr));
    SeriesScoreInRange(m.ttfc, Times(peers, Ttfc));
    CombinedSpeedInRange(Renormalized(map[], m, peers));
  }
}
