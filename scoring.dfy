/**
 * The per-record dimension score calculator (`calculate_scores`): raw metrics
 * become the score fields C, R, D, E, S, K, P_O and overall. A metric that is
 * missing or not of the expected kind gives "Unknown", never a silent zero,
 * except where the source supplies a default (the three effort counts and the
 * overreach count default to 0 when the key is missing).
 */
module Scoring {
  import opened Values

  /** The raw metrics block of one result document. */
  datatype Metrics = Metrics(
    passrate: Val,             // acceptance.passrate
    reproducibility: Val,      // reproducibility_rating
    determinism: Val,          // determinism_compliance
    clarifications: Val,       // clarifications_count
    interventions: Val,        // interventions_count
    reruns: Val,               // reruns_count
    contractPassrate: Val,     // contract_completeness_passrate
    instructionsQuality: Val,  // instructions_quality_rating
    overreach: Val,            // overreach_incidents_count
    ttfr: Val,                 // ttfr.minutes
    ttfc: Val                  // ttfc.minutes
  )

  /** The eight score fields of a record. */
  datatype ScoreSet = ScoreSet(c: Score, r: Score, d: Score, e: Score, s: Score, k: Score, po: Score, overall: Score)

  /** C: the acceptance passrate as a percentage, when it is a number. */
  function Correctness(passrate: Val): (c: Score)
    ensures c.Known? <==> passrate.Num?
  {
    match passrate
    case Num(p) => Known(Round1(100.0 * p))
    case _ => Unknown
  }

  /** R: the reproducibility rating "None", "Minor" or "Major" as 100, 80 or 40. */
  function Reproducibility(rating: Val): (r: Score)
    ensures r.Known? <==> rating in {Str("None"), Str("Minor"), Str("Major")}
  {
    if rating == Str("None") then Known(100.0)
    else if rating == Str("Minor") then Known(80.0)
    else if rating == Str("Major") then Known(40.0)
    else Unknown
  }

  /** D: determinism compliance "Pass" or "Fail" as 100 or 0. */
  function Determinism(compliance: Val): (d: Score)
    ensures d.Known? <==> compliance == Str("Pass") || compliance == Str("Fail")
  {
    if compliance == Str("Pass") then Known(100.0)
    else if compliance == Str("Fail") then Known(0.0)
    else Unknown
  }

  /**
   * The number an operator-effort count contributes. A missing count
   * defaults to 0; a count that is not a number is skipped, which comes to
   * the same thing.
   */
  function CountValue(count: Val): real
  {
    match count
    case Num(n) => n
    case Absent => 0.0
    case _ => 0.0
  }

  /** E: 100 less 3 per clarification, 10 per intervention and 5 per rerun, never below 0. */
  function Effort(clarifications: Val, interventions: Val, reruns: Val): (e: Score)
    ensures e.Known? && e.value >= 0.0
  {
    var effort := 100.0 - 3.0 * CountValue(clarifications) - 10.0 * CountValue(interventions) - 5.0 * CountValue(reruns);
    Known(Max(0.0, Round1(effort)))
  }

  /** K: 70% contract completeness and 30% instructions quality, when both are numbers. */
  function ContractDocs(contractPassrate: Val, instructionsQuality: Val): (k: Score)
    ensures k.Known? <==> contractPassrate.Num? && instructionsQuality.Num?
  {
    if contractPassrate.Num? && instructionsQuality.Num? then
      var contractScore := 100.0 * contractPassrate.x;
      var docsScore := instructionsQuality.x;
      Known(Round1(0.7 * contractScore + 0.3 * docsScore))
    else
      Unknown
  }

  /** P_O: 8 points per overreach incident, capped at 40; a missing count means 0 incidents. */
  function Overreach(count: Val): (po: Score)
    ensures po.Known? <==> count.Num? || count.Absent?
    ensures po.Known? ==> po.value <= 40.0
  {
    match count
    case Num(n) => Known(Min(40.0, Round1(8.0 * n)))
    case Absent => Known(Min(40.0, Round1(8.0 * 0.0)))
    case _ => Unknown
  }

  /** The amount subtracted from the mean: P_O, or 0 when P_O is "Unknown". */
  function Penalty(po: Score): real
  {
    if po.Known? then po.value else 0.0
  }

  /**
   * overall: the mean of the numeric fields among `fields`, less the penalty,
   * rounded and clamped to 0..100; "Unknown" when fewer than four fields are
   * numeric.
   */
  function Overall(fields: seq<Score>, po: Score): (o: Score)
    ensures o.Known? <==> |KnownValues(fields)| >= 4
    ensures o.Known? ==> 0.0 <= o.value <= 100.0
  {
    var known := KnownValues(fields);
    if |known| >= 4 then
      Known(Clamp(0.0, 100.0, Round1(Sum(known) / |known| as real - Penalty(po))))
    else
      Unknown
  }

  /**
   * The score set of one record before cohort comparison. S is still
   * "Unknown", and overall is computed over the fields in their dictionary
   * order C, R, D, E, S, K, P_O, so the mean takes in P_O as well.
   */
  function CalculateScores(m: Metrics): (scores: ScoreSet)
    ensures scores.s == Unknown
    ensures scores.e.Known?
  {
    var c := Correctness(m.passrate);
    var r := Reproducibility(m.reproducibility);
    var d := Determinism(m.determinism);
    var e := Effort(m.clarifications, m.interventions, m.reruns);
    var s := Unknown;
    var k := ContractDocs(m.contractPassrate, m.instructionsQuality);
    var po := Overreach(m.overreach);
    ScoreSet(c, r, d, e, s, k, po, Overall([c, r, d, e, s, k, po], po))
  }

  function Ind(b: bool): nat
  {
    if b then 1 else 0
  }

  /** Metrics within the ranges the result schema documents. */
  predicate WellFormed(m: Metrics)
  {
    && (m.passrate.Num? ==> 0.0 <= m.passrate.x <= 1.0)
    && (m.clarifications.Num? ==> m.clarifications.x >= 0.0)
    && (m.interventions.Num? ==> m.interventions.x >= 0.0)
    && (m.reruns.Num? ==> m.reruns.x >= 0.0)
    && (m.contractPassrate.Num? ==> 0.0 <= m.contractPassrate.x <= 1.0)
    && (m.instructionsQuality.Num? ==> 0.0 <= m.instructionsQuality.x <= 100.0)
    && (m.overreach.Num? ==> m.overreach.x >= 0.0)
  }

  predicate InRange(s: Score, hi: real)
  {
    s.Known? ==> 0.0 <= s.value <= hi
  }

  /** C is the rounded percentage of a numeric passrate, and a passrate in [0, 1] gives a C in [0, 100]. */
  lemma CorrectnessOfPassrate(p: real)
    ensures Correctness(Num(p)) == Known(Round1(100.0 * p))
    ensures 0.0 <= p <= 1.0 ==> 0.0 <= Correctness(Num(p)).value <= 100.0
  {
    if 0.0 <= p <= 1.0 {
      Round1Between(100.0 * p, 0, 100);
    }
  }

  /** E never drops below 0, and without negative counts it never exceeds 100. */
  lemma EffortBounds(clarifications: Val, interventions: Val, reruns: Val)
    requires clarifications.Num? ==> clarifications.x >= 0.0
    requires interventions.Num? ==> interventions.x >= 0.0
    requires reruns.Num? ==> reruns.x >= 0.0
    ensures 0.0 <= Effort(clarifications, interventions, reruns).value <= 100.0
  {
    var effort := 100.0 - 3.0 * CountValue(clarifications) - 10.0 * CountValue(interventions) - 5.0 * CountValue(reruns);
    Round1Monotone(effort, 100.0);
    Round1Int(100);
  }

  /** R maps "None", "Minor" and "Major" to 100, 80 and 40; D maps "Pass" and "Fail" to 100 and 0. */
  lemma RatingScores()
    ensures Reproducibility(Str("None")) == Known(100.0)
    ensures Reproducibility(Str("Minor")) == Known(80.0)
    ensures Reproducibility(Str("Major")) == Known(40.0)
    ensures Determinism(Str("Pass")) == Known(100.0)
    ensures Determinism(Str("Fail")) == Known(0.0)
  {
  }

  /**
   * Whole-number counts need no rounding: E is exactly 100 less 3 per
   * clarification, 10 per intervention and 5 per rerun, or 0 once that
   * drops below 0.
   */
  lemma EffortWholeCounts(c: int, i: int, n: int)
    ensures Effort(Num(c as real), Num(i as real), Num(n as real))
      == Known(if 100 - 3 * c - 10 * i - 5 * n >= 0 then (100 - 3 * c - 10 * i - 5 * n) as real else 0.0)
  {
    Round1Int(100 - 3 * c - 10 * i - 5 * n);
  }

  /** A count that is not a number, or is missing, is skipped: it acts as a count of 0. */
  lemma EffortSkipsNonNumbers(x: Val, a: Val, b: Val)
    requires !x.Num?
    ensures Effort(x, a, b) == Effort(Num(0.0), a, b)
    ensures Effort(a, x, b) == Effort(a, Num(0.0), b)
    ensures Effort(a, b, x) == Effort(a, b, Num(0.0))
  {
  }

  /** E is 100 when every numeric count is 0, including when every count is "Unknown" or missing. */
  lemma EffortFullWithoutDeductions(clarifications: Val, interventions: Val, reruns: Val)
    requires clarifications.Num? ==> clarifications.x == 0.0
    requires interventions.Num? ==> interventions.x == 0.0
    requires reruns.Num? ==> reruns.x == 0.0
    ensures Effort(clarifications, interventions, reruns) == Known(100.0)
  {
    Round1Int(100);
  }

  /** A whole overreach count n needs no rounding: P_O is 8n, capped at 40. */
  lemma OverreachWholeCount(n: int)
    ensures Overreach(Num(n as real)) == Known(if 8 * n <= 40 then (8 * n) as real else 40.0)
  {
    Round1Int(8 * n);
  }

  /** P_O: 0 incidents give 0, 5 and 6 incidents both give the cap of 40, a missing count gives 0, non-numbers give "Unknown". */
  lemma OverreachCases(n: real)
    ensures Overreach(Num(0.0)) == Known(0.0)
    ensures Overreach(Num(5.0)) == Known(40.0)
    ensures Overreach(Num(6.0)) == Known(40.0)
    ensures n >= 5.0 ==> Overreach(Num(n)) == Known(40.0)
    ensures n >= 0.0 ==> 0.0 <= Overreach(Num(n)).value <= 40.0
    ensures Overreach(Absent) == Known(0.0)
    ensures Overreach(Null) == Unknown && Overreach(Str("Unknown")) == Unknown
  {
    Round1Int(0);
    Round1Int(40);
    Round1Int(48);
    if n >= 5.0 {
      Round1Monotone(40.0, 8.0 * n);
    }
    if n >= 0.0 {
      Round1Monotone(0.0, 8.0 * n);
    }
  }

  /** K is the rounded weighted sum, and lies in [0, 100] when both of its inputs lie in their documented ranges. */
  lemma ContractDocsInRange(cp: real, iq: real)
    ensures ContractDocs(Num(cp), Num(iq)) == Known(Round1(0.7 * (100.0 * cp) + 0.3 * iq))
    ensures 0.0 <= cp <= 1.0 && 0.0 <= iq <= 100.0 ==> 0.0 <= ContractDocs(Num(cp), Num(iq)).value <= 100.0
  {
    if 0.0 <= cp <= 1.0 && 0.0 <= iq <= 100.0 {
      Round1Between(0.7 * (100.0 * cp) + 0.3 * iq, 0, 100);
    }
  }

  /** The number of numeric fields in a list of score fields. */
  function CountKnown(fields: seq<Score>): nat
  {
    if |fields| == 0 then 0 else Ind(fields[0].Known?) + CountKnown(fields[1..])
  }

  lemma {:induction false} KnownValuesCount(fields: seq<Score>)
    ensures |KnownValues(fields)| == CountKnown(fields)
  {
    if |fields| > 0 {
      KnownValuesCount(fields[1..]);
    }
  }

  /**
   * overall is numeric exactly when at least four of C, R, D, E, K and P_O
   * are numeric; E always is, and S never is at this stage.
   */
  lemma OverallKnownIff(m: Metrics)
    ensures CalculateScores(m).overall.Known? <==>
      Ind(m.passrate.Num?)
      + Ind(m.reproducibility in {Str("None"), Str("Minor"), Str("Major")})
      + Ind(m.determinism == Str("Pass") || m.determinism == Str("Fail"))
      + 1
      + Ind(m.contractPassrate.Num? && m.instructionsQuality.Num?)
      + Ind(m.overreach.Num? || m.overreach.Absent?)
      >= 4
  {
    var s := CalculateScores(m);
    var fields := [s.c, s.r, s.d, s.e, s.s, s.k, s.po];
    KnownValuesCount(fields);
    CountSeven(s.c, s.r, s.d, s.e, s.s, s.k, s.po);
  }

  lemma CountSeven(a: Score, b: Score, c: Score, d: Score, e: Score, f: Score, g: Score)
    ensures CountKnown([a, b, c, d, e, f, g])
      == Ind(a.Known?) + Ind(b.Known?) + Ind(c.Known?) + Ind(d.Known?) + Ind(e.Known?) + Ind(f.Known?) + Ind(g.Known?)
  {
    CountKnownCons(a, [b, c, d, e, f, g]);
    CountKnownCons(b, [c, d, e, f, g]);
    CountKnownCons(c, [d, e, f, g]);
    CountKnownCons(d, [e, f, g]);
    CountKnownCons(e, [f, g]);
    CountKnownCons(f, [g]);
    CountKnownCons(g, []);
  }

  lemma CountKnownCons(x: Score, xs: seq<Score>)
    ensures CountKnown([x] + xs) == Ind(x.Known?) + CountKnown(xs)
  {
    assert ([x] + xs)[1..] == xs;
  }

  /**
   * A record whose metrics are all "Unknown": E stays 100 and every other
   * field, overall included, is "Unknown".
   */
  lemma AllUnknownMetrics()
    ensures var u := Str("Unknown");
      CalculateScores(Metrics(u, u, u, u, u, u, u, u, u, u, u))
        == ScoreSet(Unknown, Unknown, Unknown, Known(100.0), Unknown, Unknown, Unknown, Unknown)
  {
    Round1Int(100);
    var u := Str("Unknown");
    var s := CalculateScores(Metrics(u, u, u, u, u, u, u, u, u, u, u));
    assert KnownValues([s.c, s.r, s.d, s.e, s.s, s.k, s.po]) == [100.0];
  }

  /**
   * A flawless run (passrate 1, rating "None", "Pass", no effort counts,
   * full contract and docs, no incidents) scores 83.3 overall, not 100: the
   * mean takes P_O = 0 in as a sixth field.
   */
  lemma FlawlessRunOverall()
    ensures var m := Metrics(Num(1.0), Str("None"), Str("Pass"), Num(0.0), Num(0.0), Num(0.0),
                             Num(1.0), Num(100.0), Num(0.0), Absent, Absent);
      CalculateScores(m) == ScoreSet(Known(100.0), Known(100.0), Known(100.0), Known(100.0),
                                     Unknown, Known(100.0), Known(0.0), Known(83.3))
  {
    var m := Metrics(Num(1.0), Str("None"), Str("Pass"), Num(0.0), Num(0.0), Num(0.0),
                     Num(1.0), Num(100.0), Num(0.0), Absent, Absent);
    FlawlessRunFields(m);
    var h, z := Known(100.0), Known(0.0);
    var fields := [h, h, h, h, Unknown, h, z];
    CountSeven(h, h, h, h, Unknown, h, z);
    SumSeven(h, h, h, h, Unknown, h, z);
    OverallOfFiveHundredOverSix(fields);
  }

  /** Six numeric fields summing to 500 and no penalty give overall 83.3. */
  lemma OverallOfFiveHundredOverSix(fields: seq<Score>)
    requires CountKnown(fields) == 6 && SumKnown(fields) == 500.0
    ensures Overall(fields, Known(0.0)) == Known(83.3)
  {
    assert Round1(500.0 / 6.0) == 83.3 by {
      FloorIs(500.0 / 6.0 * 10.0 + 0.5, 833);
    }
    OverallOfCounts(fields, Known(0.0));
  }

  lemma FlawlessRunFields(m: Metrics)
    requires m == Metrics(Num(1.0), Str("None"), Str("Pass"), Num(0.0), Num(0.0), Num(0.0),
                          Num(1.0), Num(100.0), Num(0.0), Absent, Absent)
    ensures var h, z := Known(100.0), Known(0.0);
      CalculateScores(m) == ScoreSet(h, h, h, h, Unknown, h, z, Overall([h, h, h, h, Unknown, h, z], z))
  {
    Round1Int(100);
    Round1Int(0);
  }

  /** overall in terms of the count and the sum of the numeric fields. */
  lemma OverallOfCounts(fields: seq<Score>, po: Score)
    ensures Overall(fields, po)
      == if CountKnown(fields) >= 4
         then Known(Clamp(0.0, 100.0, Round1(SumKnown(fields) / CountKnown(fields) as real - Penalty(po))))
         else Unknown
  {
    KnownValuesCount(fields);
    KnownValuesSum(fields);
  }

  /** The value a field adds to the sum of the numeric fields. */
  function ValueOr0(f: Score): real
  {
    if f.Known? then f.value else 0.0
  }

  function SumKnown(fields: seq<Score>): real
  {
    if |fields| == 0 then 0.0 else ValueOr0(fields[0]) + SumKnown(fields[1..])
  }

  lemma {:induction false} KnownValuesSum(fields: seq<Score>)
    ensures Sum(KnownValues(fields)) == SumKnown(fields)
  {
    if |fields| > 0 {
      KnownValuesSum(fields[1..]);
      var head := if fields[0].Known? then [fields[0].value] else [];
      SumAppend(head, KnownValues(fields[1..]));
    }
  }

  lemma {:induction false} SumAppend(a: seq<real>, b: seq<real>)
    ensures Sum(a + b) == Sum(a) + Sum(b)
  {
    if |a| > 0 {
      assert (a + b)[1..] == a[1..] + b;
      SumAppend(a[1..], b);
    } else {
      assert a + b == b;
    }
  }

  lemma SumSeven(a: Score, b: Score, c: Score, d: Score, e: Score, f: Score, g: Score)
    ensures SumKnown([a, b, c, d, e, f, g])
      == ValueOr0(a) + ValueOr0(b) + ValueOr0(c) + ValueOr0(d) + ValueOr0(e) + ValueOr0(f) + ValueOr0(g)
  {
    SumKnownCons(a, [b, c, d, e, f, g]);
    SumKnownCons(b, [c, d, e, f, g]);
    SumKnownCons(c, [d, e, f, g]);
    SumKnownCons(d, [e, f, g]);
    SumKnownCons(e, [f, g]);
    SumKnownCons(f, [g]);
    SumKnownCons(g, []);
  }

  lemma SumKnownCons(x: Score, xs: seq<Score>)
    ensures SumKnown([x] + xs) == ValueOr0(x) + SumKnown(xs)
  {
    assert ([x] + xs)[1..] == xs;
  }

  /**
   * Every numeric field of a well-formed record's score set is in its
   * documented range: 0..100, and 0..40 for P_O.
   */
  lemma ScoresInRange(m: Metrics)
    requires WellFormed(m)
    ensures var s := CalculateScores(m);
      && InRange(s.c, 100.0) && InRange(s.r, 100.0) && InRange(s.d, 100.0)
      && InRange(s.e, 100.0) && InRange(s.s, 100.0) && InRange(s.k, 100.0)
      && InRange(s.po, 40.0) && InRange(s.overall, 100.0)
  {
    if m.passrate.Num? {
      CorrectnessOfPassrate(m.passrate.x);
    }
    EffortBounds(m.clarifications, m.interventions, m.reruns);
    if m.contractPassrate.Num? && m.instructionsQuality.Num? {
      ContractDocsInRange(m.contractPassrate.x, m.instructionsQuality.x);
    }
    if m.overreach.Num? {
      OverreachCases(m.overreach.x);
    } else {
      OverreachCases(0.0);
    }
  }
}
