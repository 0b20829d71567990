/**
 * The data of one comparison report (`generate_comparison_report`): the
 * records of a cohort are keyed by tool identity and put into the run-1 and
 * run-2 slots of their tool, and each tool, in sorted order, becomes one row
 * of the comparison table and one entry of the detailed results.
 */
module Report {
  import opened Values
  import opened Scoring
  import opened Records
  import opened Text

  /** `ri.get('tool_version', '')`. */
  function VersionText(v: Option<string>): string
  {
    match v
    case Some(text) => text
    case None => ""
  }

  /** The tool identity of a run: name and version joined by a space, then stripped. */
  function ToolKey(id: RunIdentity): string
  {
    Strip(id.toolName + " " + VersionText(id.toolVersion))
  }

  lemma TrimEndDropsSpace(s: string)
    requires s != [] && !IsSpace(s[|s| - 1])
    ensures TrimEnd(s + " ") == s
  {
    assert (s + " ")[..|s|] == s;
    TrimEndKeeps(s);
  }

  /** A tool with a version is keyed "name version". */
  lemma ToolKeyWithVersion(id: RunIdentity)
    requires id.toolName != [] && !IsSpace(id.toolName[0])
    requires id.toolVersion.Some? && id.toolVersion.value != [] && !IsSpace(id.toolVersion.value[|id.toolVersion.value| - 1])
    ensures ToolKey(id) == id.toolName + " " + id.toolVersion.value
  {
    var s := id.toolName + " " + id.toolVersion.value;
    assert s[0] == id.toolName[0] && s[|s| - 1] == id.toolVersion.value[|id.toolVersion.value| - 1];
    StripKeeps(s);
  }

  /** A tool without a version (or with an empty one) is keyed by its name alone. */
  lemma ToolKeyWithoutVersion(id: RunIdentity)
    requires id.toolName != [] && !IsSpace(id.toolName[0]) && !IsSpace(id.toolName[|id.toolName| - 1])
    requires id.toolVersion.None? || id.toolVersion == Some("")
    ensures ToolKey(id) == id.toolName
  {
    var s := id.toolName + " ";
    assert id.toolName + " " + VersionText(id.toolVersion) == s;
    assert s[0] == id.toolName[0];
    TrimStartKeeps(s);
    TrimEndDropsSpace(id.toolName);
  }

  /** The run-1 and run-2 records of one tool; either may be missing. */
  datatype Slots = Slots(run1: Option<Record>, run2: Option<Record>)

  /** The records held by a tool's slots. */
  function SlotRecords(slots: Slots): set<Record>
  {
    (if slots.run1.Some? then {slots.run1.value} else {}) + (if slots.run2.Some? then {slots.run2.value} else {})
  }

  /** One step of the pairing loop: run 1 and run 2 overwrite their slot; other run numbers are dropped. */
  function Place(tools: map<string, Slots>, r: Record): map<string, Slots>
  {
    var key := ToolKey(r.identity);
    var slots := if key in tools then tools[key] else Slots(None, None);
    if r.identity.runNumber == 1 then tools[key := slots.(run1 := Some(r))]
    else if r.identity.runNumber == 2 then tools[key := slots.(run2 := Some(r))]
    else tools
  }

  /** The tools of a cohort after the pairing loop (lines 237-247). */
  function ToolSlotsOf(group: seq<Record>): map<string, Slots>
  {
    if |group| == 0 then map[] else Place(ToolSlotsOf(group[..|group| - 1]), group[|group| - 1])
  }

  /** The pairing loop itself. */
  method BuildToolSlots(group: seq<Record>) returns (tools: map<string, Slots>)
    ensures tools == ToolSlotsOf(group)
  {
    tools := map[];
    for i := 0 to |group|
      invariant tools == ToolSlotsOf(group[..i])
    {
      var result := group[i];
      var ri := result.identity;
      var toolKey := Strip(ri.toolName + " " + VersionText(ri.toolVersion));
      var runNum := ri.runNumber;
      var slots := if toolKey in tools then tools[toolKey] else Slots(None, None);
      if runNum == 1 {
        tools := tools[toolKey := slots.(run1 := Some(result))];
      } else if runNum == 2 {
        tools := tools[toolKey := slots.(run2 := Some(result))];
      }
      assert group[..i + 1][..i] == group[..i];
    }
    assert group[..|group|] == group;
  }

  /** A record is a run `n` of tool `k`. */
  predicate RunOf(r: Record, k: string, n: int)
  {
    ToolKey(r.identity) == k && r.identity.runNumber == n
  }

  /** The last record of `group` that is run `n` of tool `k`, if any. */
  function LastRun(group: seq<Record>, k: string, n: int): Option<Record>
  {
    if |group| == 0 then None
    else if RunOf(group[|group| - 1], k, n) then Some(group[|group| - 1])
    else LastRun(group[..|group| - 1], k, n)
  }

  /** `group[i]` is run `n` of tool `k` and no later record is. */
  predicate LastMatch(group: seq<Record>, k: string, n: int, i: int)
  {
    && 0 <= i < |group| && RunOf(group[i], k, n)
    && forall j :: i < j < |group| ==> !RunOf(group[j], k, n)
  }

  /** `LastRun` is missing exactly when the group has no run `n` of tool `k`. */
  lemma {:induction false} LastRunNone(group: seq<Record>, k: string, n: int)
    ensures LastRun(group, k, n).None? <==> forall i :: 0 <= i < |group| ==> !RunOf(group[i], k, n)
  {
    if |group| > 0 {
      var init := group[..|group| - 1];
      LastRunNone(init, k, n);
      assert forall i :: 0 <= i < |init| ==> group[i] == init[i];
    }
  }

  /** `LastRun`, when present, is the last run `n` of tool `k` in the group. */
  lemma {:induction false} LastRunSome(group: seq<Record>, k: string, n: int)
    requires LastRun(group, k, n).Some?
    ensures exists i :: LastMatch(group, k, n, i) && group[i] == LastRun(group, k, n).value
  {
    var last := |group| - 1;
    if RunOf(group[last], k, n) {
      assert LastMatch(group, k, n, last);
    } else {
      var init := group[..last];
      LastRunSome(init, k, n);
      var i :| LastMatch(init, k, n, i) && init[i] == LastRun(init, k, n).value;
      assert forall j :: 0 <= j < last ==> group[j] == init[j];
      assert LastMatch(group, k, n, i);
    }
  }

  /**
   * Pairing is last-write-wins: a tool appears exactly when it has a run 1
   * or a run 2, and each slot holds the last such run of the group.
   */
  lemma {:induction false} ToolSlotsLastWins(group: seq<Record>, k: string)
    ensures k in ToolSlotsOf(group) <==> LastRun(group, k, 1).Some? || LastRun(group, k, 2).Some?
    ensures k in ToolSlotsOf(group) ==> ToolSlotsOf(group)[k] == Slots(LastRun(group, k, 1), LastRun(group, k, 2))
  {
    if |group| > 0 {
      ToolSlotsLastWins(group[..|group| - 1], k);
    }
  }

  /** The records in a tool's slots come from the group and are that tool's runs 1 and 2. */
  predicate SlotsFor(k: string, slots: Slots, group: seq<Record>)
  {
    && (slots.run1.Some? || slots.run2.Some?)
    && (slots.run1.Some? ==> slots.run1.value in group && RunOf(slots.run1.value, k, 1))
    && (slots.run2.Some? ==> slots.run2.value in group && RunOf(slots.run2.value, k, 2))
  }

  /** Every tool has at least one filled slot, holding its own runs from the group. */
  lemma ToolSlotsSound(group: seq<Record>)
    ensures forall k :: k in ToolSlotsOf(group) ==> SlotsFor(k, ToolSlotsOf(group)[k], group)
  {
    forall k | k in ToolSlotsOf(group)
      ensures SlotsFor(k, ToolSlotsOf(group)[k], group)
    {
      ToolSlotsLastWins(group, k);
      if LastRun(group, k, 1).Some? {
        LastRunSome(group, k, 1);
      }
      if LastRun(group, k, 2).Some? {
        LastRunSome(group, k, 2);
      }
    }
  }

  /** A later run 1 of the same tool replaces an earlier one. */
  lemma DuplicateRunOverwrites(a: Record, b: Record)
    requires RunOf(a, ToolKey(b.identity), 1) && b.identity.runNumber == 1
    ensures ToolSlotsOf([a, b])[ToolKey(b.identity)].run1 == Some(b)
  {
    assert [a, b][..1] == [a];
    assert [a][..0] == [];
  }

  /** A run numbered other than 1 or 2 is not placed anywhere. */
  lemma OtherRunDropped(group: seq<Record>, r: Record)
    requires r.identity.runNumber != 1 && r.identity.runNumber != 2
    ensures ToolSlotsOf(group + [r]) == ToolSlotsOf(group)
  {
    assert (group + [r])[..|group|] == group;
  }

  /** The report id "{spec}-Model{model}-{api}-Comparison". */
  function ReportId(key: CohortKey): string
  {
    key.spec + "-Model" + key.model + "-" + key.api + "-Comparison"
  }

  /** The index of the first '-' in `t`, or `|t|` without one. */
  function FirstDash(t: string): nat
  {
    if |t| == 0 || t[0] == '-' then 0 else 1 + FirstDash(t[1..])
  }

  lemma {:induction false} FirstDashOf(m: string, rest: string)
    requires '-' !in m
    ensures FirstDash(m + "-" + rest) == |m|
  {
    if |m| > 0 {
      assert (m + "-" + rest)[1..] == m[1..] + "-" + rest;
      assert m[0] in m;
      FirstDashOf(m[1..], rest);
    }
  }

  lemma ConcatCancel(a: string, b: string, c: string, d: string)
    requires a + b == c + d && |a| == |c|
    ensures a == c && b == d
  {
    assert a == (a + b)[..|a|] && c == (c + d)[..|c|];
    assert b == (a + b)[|a|..] && d == (c + d)[|c|..];
  }

  /**
   * Report ids tell cohorts apart when spec references have one length and
   * model names hold no '-'.
   */
  lemma ReportIdInjective(k1: CohortKey, k2: CohortKey)
    requires |k1.spec| == |k2.spec| && '-' !in k1.model && '-' !in k2.model
    requires ReportId(k1) == ReportId(k2)
    ensures k1 == k2
  {
    var rest1, rest2 := k1.api + "-Comparison", k2.api + "-Comparison";
    var w1, w2 := k1.model + "-" + rest1, k2.model + "-" + rest2;
    assert ReportId(k1) == k1.spec + ("-Model" + w1);
    assert ReportId(k2) == k2.spec + ("-Model" + w2);
    ConcatCancel(k1.spec, "-Model" + w1, k2.spec, "-Model" + w2);
    ConcatCancel("-Model", w1, "-Model", w2);
    FirstDashOf(k1.model, rest1);
    FirstDashOf(k2.model, rest2);
    assert w1 == k1.model + ("-" + rest1) && w2 == k2.model + ("-" + rest2);
    ConcatCancel(k1.model, "-" + rest1, k2.model, "-" + rest2);
    ConcatCancel("-", rest1, "-", rest2);
    ConcatCancel(k1.api, "-Comparison", k2.api, "-Comparison");
  }

  /** One row of the comparison table. */
  datatype Row = Row(
    toolName: string,
    toolVersion: string,
    targetModel: string,
    specReference: string,
    ttfrRun1: Val,
    ttfrRun2: Val,
    ttfcRun1: Val,
    ttfcRun2: Val,
    scores: ScoreSet
  )

  /** One entry of the detailed results: the source files of the tool's runs. */
  datatype Detail = Detail(tool: string, run1File: Option<string>, run2File: Option<string>)

  /** The structured content of one comparison report. */
  datatype ComparisonReport = ComparisonReport(
    reportId: string,
    specReference: string,
    targetModel: string,
    toolsCompared: seq<string>,
    rows: seq<Row>,
    details: seq<Detail>
  )

  const AllUnknown := ScoreSet(Unknown, Unknown, Unknown, Unknown, Unknown, Unknown, Unknown, Unknown)

  /** A timing cell: "N/A" for a missing run, "Unknown" for a missing minutes value. */
  function TimingCell(slot: Option<Record>, series: Series): Val
  {
    match slot
    case None => Str("N/A")
    case Some(r) => if Minutes(r.metrics, series).Absent? then Str("Unknown") else Minutes(r.metrics, series)
  }

  /** The score dictionary of a slot, missing when the slot is empty. */
  function ScoresOf(slot: Option<Record>): Option<ScoreSet>
    reads if slot.Some? then {slot.value} else {}
  {
    match slot
    case Some(r) => Some(r.scores)
    case None => None
  }

  /**
   * The score fields of a row: run 1's dictionary when there is a run 1,
   * else run 2's, else "Unknown" throughout. Every scored record holds all
   * eight fields, so looking each field up in run 1 and then in run 2
   * amounts to this choice.
   */
  function PickScores(s1: Option<ScoreSet>, s2: Option<ScoreSet>): ScoreSet
  {
    match s1
    case Some(scores) => scores
    case None => match s2 case Some(scores) => scores case None => AllUnknown
  }

  /** The row of a tool; its identity columns come from run 1, or from run 2 without one. */
  function RowOf(slots: Slots): Row
    requires slots.run1.Some? || slots.run2.Some?
    reads SlotRecords(slots)
  {
    var ri := if slots.run1.Some? then slots.run1.value.identity else slots.run2.value.identity;
    Row(ri.toolName, VersionText(ri.toolVersion), ri.targetModel, ri.specReference,
        TimingCell(slots.run1, Ttfr), TimingCell(slots.run2, Ttfr),
        TimingCell(slots.run1, Ttfc), TimingCell(slots.run2, Ttfc),
        PickScores(ScoresOf(slots.run1), ScoresOf(slots.run2)))
  }

  /** The detailed-results entry of a tool. */
  function DetailOf(tool: string, slots: Slots): Detail
  {
    Detail(tool,
           if slots.run1.Some? then Some(slots.run1.value.filename) else None,
           if slots.run2.Some? then Some(slots.run2.value.filename) else None)
  }

  /** A run 1 whose overall is "Unknown" still wins over a numeric run 2. */
  lemma RowPrefersUnknownRun1(r1: Record, r2: Record)
    requires r1.scores.overall == Unknown && r2.scores.overall.Known?
    ensures RowOf(Slots(Some(r1), Some(r2))).scores.overall == Unknown
  {
  }

  /** The strictly sorted list of `keys` (Python's `sorted` on the tool names). */
  method SortedNames(keys: set<string>) returns (names: seq<string>)
    ensures Sorted(names)
    ensures forall k :: k in names <==> k in keys
  {
    names := [];
    var pending := keys;
    while pending != {}
      invariant pending <= keys
      invariant Sorted(names)
      invariant forall k :: k in names <==> k in keys && k !in pending
      decreases pending
    {
      var k :| k in pending;
      names := Insert(k, names);
      pending := pending - {k};
    }
  }

  /**
   * `report` is the report of cohort `key` whose records are `group`: its
   * id, header fields, sorted tool list, and one row and one detail entry
   * per tool in that order.
   */
  ghost predicate IsComparisonReport(report: ComparisonReport, key: CohortKey, group: seq<Record>)
    reads set r | r in group
  {
    var tools := ToolSlotsOf(group);
    ToolSlotsSound(group);
    && report.reportId == ReportId(key)
    && report.specReference == key.spec
    && report.targetModel == key.model
    && Sorted(report.toolsCompared)
    && (forall k :: k in report.toolsCompared <==> k in tools)
    && |report.rows| == |report.toolsCompared|
    && |report.details| == |report.toolsCompared|
    && forall i :: 0 <= i < |report.toolsCompared| ==>
         && report.toolsCompared[i] in tools
         && report.rows[i] == RowOf(tools[report.toolsCompared[i]])
         && report.details[i] == DetailOf(report.toolsCompared[i], tools[report.toolsCompared[i]])
  }

  /** The report of a cohort is fully determined by its records. */
  lemma ComparisonReportUnique(a: ComparisonReport, b: ComparisonReport, key: CohortKey, group: seq<Record>)
    requires IsComparisonReport(a, key, group) && IsComparisonReport(b, key, group)
    ensures a == b
  {
    SortedUnique(a.toolsCompared, b.toolsCompared);
    assert a.rows == b.rows;
    assert a.details == b.details;
  }

  /**
   * A row of a report never averages: its scores are those of the tool's
   * last run 1 in the cohort, even where a field of it is "Unknown", and
   * only without a run 1 those of its last run 2.
   */
  lemma ReportRowScores(report: ComparisonReport, key: CohortKey, group: seq<Record>, j: int)
    requires IsComparisonReport(report, key, group)
    requires 0 <= j < |report.toolsCompared|
    ensures var k := report.toolsCompared[j];
      && (LastRun(group, k, 1).Some? ==> report.rows[j].scores == LastRun(group, k, 1).value.scores)
      && (LastRun(group, k, 1).None? ==>
            LastRun(group, k, 2).Some? && report.rows[j].scores == LastRun(group, k, 2).value.scores)
  {
    ToolSlotsLastWins(group, report.toolsCompared[j]);
  }

  /**
   * The timing cells of a report row come from the tool's last run 1 and
   * last run 2 in the cohort, and are "N/A" for a run the tool lacks.
   */
  lemma ReportRowTimings(report: ComparisonReport, key: CohortKey, group: seq<Record>, j: int)
    requires IsComparisonReport(report, key, group)
    requires 0 <= j < |report.toolsCompared|
    ensures var k := report.toolsCompared[j];
      var row, run1, run2 := report.rows[j], LastRun(group, k, 1), LastRun(group, k, 2);
      && row.ttfrRun1 == TimingCell(run1, Ttfr) && row.ttfcRun1 == TimingCell(run1, Ttfc)
      && row.ttfrRun2 == TimingCell(run2, Ttfr) && row.ttfcRun2 == TimingCell(run2, Ttfc)
      && (run1.None? ==> row.ttfrRun1 == Str("N/A") && row.ttfcRun1 == Str("N/A"))
      && (run2.None? ==> row.ttfrRun2 == Str("N/A") && row.ttfcRun2 == Str("N/A"))
  {
    ToolSlotsLastWins(group, report.toolsCompared[j]);
  }

  /** The comparison-table loop (lines 269-314): one row per tool, in the order of `names`. */
  method BuildRows(tools: map<string, Slots>, names: seq<string>) returns (rows: seq<Row>)
    requires forall i :: 0 <= i < |names| ==> names[i] in tools
    requires forall k :: k in tools ==> tools[k].run1.Some? || tools[k].run2.Some?
    ensures |rows| == |names|
    ensures forall i :: 0 <= i < |names| ==> rows[i] == RowOf(tools[names[i]])
  {
    rows := [];
    for i := 0 to |names|
      invariant |rows| == i
      invariant forall j :: 0 <= j < i ==> rows[j] == RowOf(tools[names[j]])
    {
      var toolData := tools[names[i]];
      var run1, run2 := toolData.run1, toolData.run2;
      var ri := if run1.Some? then run1.value.identity else run2.value.identity;
      var ttfrR1, ttfcR1 := TimingCell(run1, Ttfr), TimingCell(run1, Ttfc);
      var ttfrR2, ttfcR2 := TimingCell(run2, Ttfr), TimingCell(run2, Ttfc);
      var scores := if run1.Some? then run1.value.scores else if run2.Some? then run2.value.scores else AllUnknown;
      rows := rows + [Row(ri.toolName, VersionText(ri.toolVersion), ri.targetModel, ri.specReference,
                          ttfrR1, ttfrR2, ttfcR1, ttfcR2, scores)];
    }
  }

  /** The detailed-results loop (lines 316-325): the run files of each tool, in the order of `names`. */
  method BuildDetails(tools: map<string, Slots>, names: seq<string>) returns (details: seq<Detail>)
    requires forall i :: 0 <= i < |names| ==> names[i] in tools
    ensures |details| == |names|
    ensures forall i :: 0 <= i < |names| ==> details[i] == DetailOf(names[i], tools[names[i]])
  {
    details := [];
    for i := 0 to |names|
      invariant |details| == i
      invariant forall j :: 0 <= j < i ==> details[j] == DetailOf(names[j], tools[names[j]])
    {
      var toolData := tools[names[i]];
      var run1File := if toolData.run1.Some? then Some(toolData.run1.value.filename) else None;
      var run2File := if toolData.run2.Some? then Some(toolData.run2.value.filename) else None;
      details := details + [Detail(names[i], run1File, run2File)];
    }
  }

  /**
   * The data part of `generate_comparison_report` (lines 234-250, 269-325):
   * pair the runs, sort the tools, then build the table rows and the
   * detailed-results entries.
   */
  method GenerateComparisonReport(key: CohortKey, group: seq<Record>) returns (report: ComparisonReport)
    ensures IsComparisonReport(report, key, group)
  {
    var tools := BuildToolSlots(group);
    ToolSlotsSound(group);
    var reportId := ReportId(key);
    var names := SortedNames(tools.Keys);
    var rows := BuildRows(tools, names);
    var details := BuildDetails(tools, names);
    report := ComparisonReport(reportId, key.spec, key.model, names, rows, details);
  }
}
