/**
 * One benchmark-run record: its run identity, its raw metrics and the file
 * it came from, which never change once loaded, and the score fields and
 * normalized timing scores that the later stages write onto it in place.
 */
module Records {
  import opened Values
  import opened Scoring

  /** The run_identity block of a result document. */
  datatype RunIdentity = RunIdentity(
    toolName: string,
    toolVersion: Option<string>,  // the key is optional
    targetModel: string,
    apiStyle: string,
    specReference: string,
    runNumber: int
  )

  /** The cohort a run belongs to: (spec_reference, target_model, api_style). */
  datatype CohortKey = CohortKey(spec: string, model: string, api: string)

  /** The two timing series that speed is computed from. */
  datatype Series = Ttfr | Ttfc

  /** `metrics['ttfr']['minutes']` or `metrics['ttfc']['minutes']`. */
  function Minutes(m: Metrics, series: Series): Val
  {
    match series
    case Ttfr => m.ttfr
    case Ttfc => m.ttfc
  }

  class Record {
    const identity: RunIdentity
    const metrics: Metrics
    const filename: string
    /** result_data.scores */
    var scores: ScoreSet
    /** The `_ttfr_score` and `_ttfc_score` entries of the record, where present. */
    var normalized: map<Series, real>

    constructor (identity: RunIdentity, metrics: Metrics, filename: string, scores: ScoreSet)
      ensures this.identity == identity && this.metrics == metrics && this.filename == filename
      ensures this.scores == scores && normalized == map[]
    {
      this.identity := identity;
      this.metrics := metrics;
      this.filename := filename;
      this.scores := scores;
      normalized := map[];
    }
  }

  /** The cohort key of a record. */
  function Key(r: Record): CohortKey
  {
    CohortKey(r.identity.specReference, r.identity.targetModel, r.identity.apiStyle)
  }
}
