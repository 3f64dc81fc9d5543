/** The force-decomposition transform: each day of the history timeline becomes one
    chart row holding every registered force's raw value, its split into an
    upward-stacked positive part and a downward-stacked negative part, and the net
    force of the day. */
module ForceSeries {
  import opened Wrappers
  import opened ForcesMeta

  /** A force reading `{value}` as delivered by the history feed; the value may be absent. */
  datatype ForceEntry = ForceEntry(value: Option<real>)

  /** One day of the timeline; the whole `forces` object may be absent. */
  datatype DayRecord = DayRecord(date: string, forces: Option<map<string, ForceEntry>>)

  /** The history payload; its `timeline` may be absent. */
  datatype HistoryData = HistoryData(timeline: Option<seq<DayRecord>>)

  /** One chart row. `raw` is the row's `_raw` object (force id to value), `series`
      holds the `pos_<id>` and `neg_<id>` fields, and `net` is `_net`. */
  datatype Row = Row(date: string, raw: map<string, real>, series: map<string, real>, net: real)

  /** The positive and negative contribution of one value. */
  datatype Split = Split(pos: real, neg: real)

  /** The forces map of a day, an absent map read as empty. */
  function DayForces(day: DayRecord): map<string, ForceEntry> {
    day.forces.GetOr(map[])
  }

  /** The value of force `id`: 0 when the force is absent or carries no value. */
  function RawValue(forces: map<string, ForceEntry>, id: string): real {
    if id in forces then forces[id].value.GetOr(0.0) else 0.0
  }

  /** The raw value of force `id` on `day`. */
  function ForceValue(day: DayRecord, id: string): real {
    RawValue(DayForces(day), id)
  }

  /** Reading of a numeric field that defaults to 0 when the key is absent. */
  function Lookup(m: map<string, real>, k: string): real {
    if k in m then m[k] else 0.0
  }

  /** Sum of the fields `keys` of `m`, absent fields counting 0. */
  function SumKeys(m: map<string, real>, keys: seq<string>): real {
    if |keys| == 0 then 0.0 else Lookup(m, keys[0]) + SumKeys(m, keys[1..])
  }

  /** Reference definition of the net force: the sum of the raw values of `ids` on `day`. */
  function RawTotal(day: DayRecord, ids: seq<string>): real {
    if |ids| == 0 then 0.0 else ForceValue(day, ids[0]) + RawTotal(day, ids[1..])
  }

  /** Splits a value into its stacked parts. The contract determines the split
      uniquely (see `SplitUnique`). */
  function SplitValue(v: real): (s: Split)
    ensures s.pos >= 0.0 && s.neg <= 0.0
    ensures s.pos + s.neg == v
    ensures s.pos == 0.0 || s.neg == 0.0
  {
    Split(if v > 0.0 then v else 0.0, if v < 0.0 then v else 0.0)
  }

  /** Any pair meeting the split invariants is the split the transform computes. */
  lemma SplitUnique(v: real, p: real, n: real)
    requires p >= 0.0 && n <= 0.0 && p + n == v
    requires p == 0.0 || n == 0.0
    ensures SplitValue(v) == Split(p, n)
    ensures p > 0.0 <==> v > 0.0
    ensures n < 0.0 <==> v < 0.0
  {
  }

  /** One iteration of the loop over the registry: records the raw value and its split. */
  function Step(row: Row, forces: map<string, ForceEntry>, fm: ForceMeta): Row {
    var v := RawValue(forces, fm.id);
    var s := SplitValue(v);
    row.(raw := row.raw[fm.id := v], series := row.series[PosKey(fm.id) := s.pos][NegKey(fm.id) := s.neg])
  }

  /** The loop over the registry, in registry order. */
  function Fill(row: Row, forces: map<string, ForceEntry>, metas: seq<ForceMeta>): Row
    decreases |metas|
  {
    if |metas| == 0 then row else Fill(Step(row, forces, metas[0]), forces, metas[1..])
  }

  /** The row built for `day` against the registry `metas`. */
  function BuildRowWith(metas: seq<ForceMeta>, day: DayRecord): Row {
    var filled := Fill(Row(day.date, map[], map[], 0.0), DayForces(day), metas);
    filled.(net := SumKeys(filled.raw, Ids(metas)))
  }

  /** The row built for `day` against the fixed registry. */
  function BuildRow(day: DayRecord): Row {
    BuildRowWith(FORCES_META, day)
  }

  /** The timeline of the payload; a missing payload or timeline reads as empty. */
  function Timeline(data: Option<HistoryData>): seq<DayRecord> {
    match data
    case None => []
    case Some(h) => h.timeline.GetOr([])
  }

  /** `timeline.map(...)`: one row per day, in order. */
  function MapRows(metas: seq<ForceMeta>, days: seq<DayRecord>): (rows: seq<Row>)
    ensures |rows| == |days|
    ensures forall i :: 0 <= i < |days| ==> rows[i] == BuildRowWith(metas, days[i])
  {
    if |days| == 0 then [] else [BuildRowWith(metas, days[0])] + MapRows(metas, days[1..])
  }

  /** The chart series for a payload against the registry `metas`. */
  function ChartDataWith(metas: seq<ForceMeta>, data: Option<HistoryData>): (rows: seq<Row>)
    ensures |rows| == |Timeline(data)|
    ensures forall i :: 0 <= i < |rows| ==> rows[i] == BuildRowWith(metas, Timeline(data)[i])
  {
    var days := Timeline(data);
    if |days| == 0 then [] else MapRows(metas, days)
  }

  /** The chart series for a payload against the fixed registry. */
  function ChartData(data: Option<HistoryData>): seq<Row> {
    ChartDataWith(FORCES_META, data)
  }

  /** What the registry loop leaves in a row: exactly the visited ids and their series
      keys are added, each with the force's raw value and split; everything else is kept. */
  lemma {:induction false} FillSpec(row: Row, forces: map<string, ForceEntry>, metas: seq<ForceMeta>)
    ensures Fill(row, forces, metas).date == row.date
    ensures Fill(row, forces, metas).net == row.net
    ensures forall k :: k in Fill(row, forces, metas).raw <==> k in row.raw || k in Ids(metas)
    ensures forall k :: k in Fill(row, forces, metas).series <==>
              k in row.series || k in PosKeys(Ids(metas)) || k in NegKeys(Ids(metas))
    ensures forall id :: id in Ids(metas) ==>
              var r := Fill(row, forces, metas);
              && id in r.raw && r.raw[id] == RawValue(forces, id)
              && PosKey(id) in r.series && r.series[PosKey(id)] == SplitValue(RawValue(forces, id)).pos
              && NegKey(id) in r.series && r.series[NegKey(id)] == SplitValue(RawValue(forces, id)).neg
    ensures forall k :: k in row.raw && k !in Ids(metas) ==>
              k in Fill(row, forces, metas).raw && Fill(row, forces, metas).raw[k] == row.raw[k]
    ensures forall k :: k in row.series && k !in PosKeys(Ids(metas)) && k !in NegKeys(Ids(metas)) ==>
              k in Fill(row, forces, metas).series && Fill(row, forces, metas).series[k] == row.series[k]
    decreases |metas|
  {
    if |metas| > 0 {
      var m0 := metas[0];
      var rest := metas[1..];
      var row1 := Step(row, forces, m0);
      var r := Fill(row, forces, metas);
      assert r == Fill(row1, forces, rest);
      FillSpec(row1, forces, rest);
      var ids := Ids(metas);
      assert ids == [m0.id] + Ids(rest);
      assert PosKeys(ids) == [PosKey(m0.id)] + PosKeys(Ids(rest));
      assert NegKeys(ids) == [NegKey(m0.id)] + NegKeys(Ids(rest));
      SeriesKeysDistinct(m0.id, m0.id);
      forall id | id in ids
        ensures id in r.raw && r.raw[id] == RawValue(forces, id)
        ensures PosKey(id) in r.series && r.series[PosKey(id)] == SplitValue(RawValue(forces, id)).pos
        ensures NegKey(id) in r.series && r.series[NegKey(id)] == SplitValue(RawValue(forces, id)).neg
      {
        if id !in Ids(rest) {
          assert id == m0.id;
          InPosKeys(id, Ids(rest));
          InNegKeys(id, Ids(rest));
        }
      }
    }
  }

  /** The sum of the `_raw` fields is the reference net of the day. */
  lemma {:induction false} SumKeysIsRawTotal(m: map<string, real>, day: DayRecord, ids: seq<string>)
    requires forall id :: id in ids ==> id in m && m[id] == ForceValue(day, id)
    ensures SumKeys(m, ids) == RawTotal(day, ids)
  {
    if |ids| > 0 {
      assert ids[0] in ids;
      SumKeysIsRawTotal(m, day, ids[1..]);
    }
  }

  /** The positive series plus the negative series of `ids` add up to their raw total. */
  lemma {:induction false} SplitTotals(series: map<string, real>, day: DayRecord, ids: seq<string>)
    requires forall id :: id in ids ==>
               && PosKey(id) in series && series[PosKey(id)] == SplitValue(ForceValue(day, id)).pos
               && NegKey(id) in series && series[NegKey(id)] == SplitValue(ForceValue(day, id)).neg
    ensures SumKeys(series, PosKeys(ids)) + SumKeys(series, NegKeys(ids)) == RawTotal(day, ids)
  {
    if |ids| > 0 {
      assert ids[0] in ids;
      assert PosKeys(ids)[1..] == PosKeys(ids[1..]);
      assert NegKeys(ids)[1..] == NegKeys(ids[1..]);
      SplitTotals(series, day, ids[1..]);
    }
  }

  /** The shape of the row of `day` built against `metas`: the date is kept, `_raw`
      holds exactly the listed ids and the series exactly their `pos_`/`neg_` keys. */
  lemma RowKeys(metas: seq<ForceMeta>, day: DayRecord)
    ensures BuildRowWith(metas, day).date == day.date
    ensures forall k :: k in BuildRowWith(metas, day).raw <==> k in Ids(metas)
    ensures forall k :: k in BuildRowWith(metas, day).series <==> k in PosKeys(Ids(metas)) || k in NegKeys(Ids(metas))
  {
    FillSpec(Row(day.date, map[], map[], 0.0), DayForces(day), metas);
  }

  /** The fields of the `i`-th listed force in the row of `day`: its raw value is the
      day's reading (0 when absent), its positive part is non-negative, its negative
      part non-positive, the two add up to the raw value and at most one is nonzero. */
  lemma RowBands(metas: seq<ForceMeta>, day: DayRecord, i: int)
    requires 0 <= i < |metas|
    ensures var r := BuildRowWith(metas, day);
            var id := metas[i].id;
            && id in r.raw && PosKey(id) in r.series && NegKey(id) in r.series
            && r.raw[id] == ForceValue(day, id)
            && r.series[PosKey(id)] >= 0.0
            && r.series[NegKey(id)] <= 0.0
            && r.series[PosKey(id)] + r.series[NegKey(id)] == r.raw[id]
            && (r.series[PosKey(id)] == 0.0 || r.series[NegKey(id)] == 0.0)
  {
    FillSpec(Row(day.date, map[], map[], 0.0), DayForces(day), metas);
    assert Ids(metas)[i] == metas[i].id;
  }

  /** `_net` is the sum of the five raw values of the day, and equally the sum of all
      positive series plus the sum of all negative series. */
  lemma NetIsTotal(day: DayRecord)
    ensures BuildRow(day).net == RawTotal(day, Ids(FORCES_META))
    ensures BuildRow(day).net == SumKeys(BuildRow(day).series, POS_KEYS) + SumKeys(BuildRow(day).series, NEG_KEYS)
  {
    var filled := Fill(Row(day.date, map[], map[], 0.0), DayForces(day), FORCES_META);
    FillSpec(Row(day.date, map[], map[], 0.0), DayForces(day), FORCES_META);
    SumKeysIsRawTotal(filled.raw, day, Ids(FORCES_META));
    SplitTotals(filled.series, day, Ids(FORCES_META));
  }

  /** The reference net is 0 when every listed force reads 0. */
  lemma {:induction false} RawTotalZero(day: DayRecord, ids: seq<string>)
    requires forall id :: id in ids ==> ForceValue(day, id) == 0.0
    ensures RawTotal(day, ids) == 0.0
  {
    if |ids| > 0 {
      assert ids[0] in ids;
      RawTotalZero(day, ids[1..]);
    }
  }

  /** A row built against `metas` from readings that are 0 at every listed id is zero
      everywhere. */
  lemma RowZero(metas: seq<ForceMeta>, day: DayRecord)
    requires forall id :: id in Ids(metas) ==> ForceValue(day, id) == 0.0
    ensures BuildRowWith(metas, day).net == 0.0
    ensures forall k :: k in BuildRowWith(metas, day).raw ==> BuildRowWith(metas, day).raw[k] == 0.0
    ensures forall k :: k in BuildRowWith(metas, day).series ==> BuildRowWith(metas, day).series[k] == 0.0
  {
    var ids := Ids(metas);
    var row0 := Row(day.date, map[], map[], 0.0);
    var filled := Fill(row0, DayForces(day), metas);
    FillSpec(row0, DayForces(day), metas);
    SumKeysIsRawTotal(filled.raw, day, ids);
    RawTotalZero(day, ids);
    forall k | k in filled.series
      ensures filled.series[k] == 0.0
    {
      if k in PosKeys(ids) {
        var i :| 0 <= i < |ids| && PosKeys(ids)[i] == k;
        assert ids[i] in ids;
      } else {
        var i :| 0 <= i < |ids| && NegKeys(ids)[i] == k;
        assert ids[i] in ids;
      }
    }
  }

  /** A day none of whose readings names a registered force (no `forces` map, an empty
      one, or only unknown ids) gives a row whose raw values, series and net are all 0. */
  lemma NoForcesAllZero(day: DayRecord)
    requires forall i :: 0 <= i < |FORCES_META| ==> FORCES_META[i].id !in DayForces(day)
    ensures BuildRow(day).net == 0.0
    ensures forall k :: k in BuildRow(day).raw ==> BuildRow(day).raw[k] == 0.0
    ensures forall k :: k in BuildRow(day).series ==> BuildRow(day).series[k] == 0.0
  {
    var ids := Ids(FORCES_META);
    forall id | id in ids
      ensures ForceValue(day, id) == 0.0
    {
      var i :| 0 <= i < |ids| && ids[i] == id;
    }
    RowZero(FORCES_META, day);
  }

  /** The loop reads the forces map only at the visited ids. */
  lemma {:induction false} FillReadsOnlyIds(row: Row, f1: map<string, ForceEntry>, f2: map<string, ForceEntry>, metas: seq<ForceMeta>)
    requires forall id :: id in Ids(metas) ==> RawValue(f1, id) == RawValue(f2, id)
    ensures Fill(row, f1, metas) == Fill(row, f2, metas)
    decreases |metas|
  {
    if |metas| > 0 {
      assert Ids(metas) == [metas[0].id] + Ids(metas[1..]);
      FillReadsOnlyIds(Step(row, f1, metas[0]), f1, f2, metas[1..]);
    }
  }

  /** Two days with the same date and the same readings of the five registered forces
      give the same row: nothing else in the forces map is looked at. */
  lemma OnlyRegistryIdsRead(d1: DayRecord, d2: DayRecord)
    requires d1.date == d2.date
    requires forall i :: 0 <= i < |FORCES_META| ==> ForceValue(d1, FORCES_META[i].id) == ForceValue(d2, FORCES_META[i].id)
    ensures BuildRow(d1) == BuildRow(d2)
  {
    var ids := Ids(FORCES_META);
    forall id | id in ids
      ensures RawValue(DayForces(d1), id) == RawValue(DayForces(d2), id)
    {
      var i :| 0 <= i < |ids| && ids[i] == id;
    }
    FillReadsOnlyIds(Row(d1.date, map[], map[], 0.0), DayForces(d1), DayForces(d2), FORCES_META);
  }

  /** Adding a reading for an id outside the registry leaves the row unchanged. */
  lemma UnknownForceIgnored(day: DayRecord, extra: string, e: ForceEntry)
    requires extra !in Ids(FORCES_META)
    ensures BuildRow(day.(forces := Some(DayForces(day)[extra := e]))) == BuildRow(day)
  {
    var day' := day.(forces := Some(DayForces(day)[extra := e]));
    forall i | 0 <= i < |FORCES_META|
      ensures ForceValue(day', FORCES_META[i].id) == ForceValue(day, FORCES_META[i].id)
    {
      assert Ids(FORCES_META)[i] == FORCES_META[i].id;
    }
    OnlyRegistryIdsRead(day', day);
  }

  /** The loop reads nothing of a registry entry but its id. */
  lemma {:induction false} FillReadsOnlyMetaIds(row: Row, forces: map<string, ForceEntry>, m1: seq<ForceMeta>, m2: seq<ForceMeta>)
    requires Ids(m1) == Ids(m2)
    ensures Fill(row, forces, m1) == Fill(row, forces, m2)
    decreases |m1|
  {
    if |m1| > 0 {
      assert m1[0].id == Ids(m1)[0] == Ids(m2)[0] == m2[0].id;
      assert Ids(m1[1..]) == Ids(m1)[1..] == Ids(m2)[1..] == Ids(m2[1..]);
      FillReadsOnlyMetaIds(Step(row, forces, m1[0]), forces, m1[1..], m2[1..]);
    }
  }

  /** Display metadata (name, colour, estimated flag) never changes the chart data:
      two registries listing the same ids in the same order give identical series. */
  lemma MetadataIgnored(m1: seq<ForceMeta>, m2: seq<ForceMeta>, data: Option<HistoryData>)
    requires Ids(m1) == Ids(m2)
    ensures ChartDataWith(m1, data) == ChartDataWith(m2, data)
  {
    var days := Timeline(data);
    forall i | 0 <= i < |days|
      ensures BuildRowWith(m1, days[i]) == BuildRowWith(m2, days[i])
    {
      FillReadsOnlyMetaIds(Row(days[i].date, map[], map[], 0.0), DayForces(days[i]), m1, m2);
    }
  }

  /** A missing payload, a missing timeline and an empty timeline all give no rows;
      otherwise there is one row per day, in timeline order, carrying that day's date. */
  lemma ChartDataShape(data: Option<HistoryData>)
    ensures ChartData(None) == []
    ensures ChartData(Some(HistoryData(None))) == []
    ensures ChartData(Some(HistoryData(Some([])))) == []
    ensures |ChartData(data)| == |Timeline(data)|
    ensures ChartData(data) == [] <==> Timeline(data) == []
    ensures forall i :: 0 <= i < |Timeline(data)| ==>
              ChartData(data)[i] == BuildRow(Timeline(data)[i]) && ChartData(data)[i].date == Timeline(data)[i].date
  {
    forall i | 0 <= i < |Timeline(data)|
      ensures ChartData(data)[i].date == Timeline(data)[i].date
    {
      RowKeys(FORCES_META, Timeline(data)[i]);
    }
  }

  /** Each row depends on its own day only: the rows of a split timeline are the rows of
      its parts, concatenated. */
  lemma MapRowsConcat(metas: seq<ForceMeta>, a: seq<DayRecord>, b: seq<DayRecord>)
    ensures MapRows(metas, a + b) == MapRows(metas, a) + MapRows(metas, b)
  {
  }

  /** The series fields of one listed force are the split of its raw value. */
  lemma SeriesAt(metas: seq<ForceMeta>, day: DayRecord, id: string)
    requires id in Ids(metas)
    ensures Lookup(BuildRowWith(metas, day).series, PosKey(id)) == SplitValue(ForceValue(day, id)).pos
    ensures Lookup(BuildRowWith(metas, day).series, NegKey(id)) == SplitValue(ForceValue(day, id)).neg
  {
    FillSpec(Row(day.date, map[], map[], 0.0), DayForces(day), metas);
  }

  /** A day with +0.4 market pressure and -0.2 emission pressure, nothing else. */
  function ExampleDay(): DayRecord {
    DayRecord("2024-01-01", Some(map["market_pressure" := ForceEntry(Some(0.4)),
                                     "emission_pressure" := ForceEntry(Some(-0.2))]))
  }

  lemma ExampleReadings()
    ensures Ids(FORCES_META) == ["market_pressure", "emission_pressure", "utility_demand", "mm_activity", "narrative"]
    ensures ForceValue(ExampleDay(), "market_pressure") == 0.4
    ensures ForceValue(ExampleDay(), "emission_pressure") == -0.2
    ensures forall id :: id in Ids(FORCES_META)[2..] ==> ForceValue(ExampleDay(), id) == 0.0
  {
    var ids := Ids(FORCES_META);
    assert |ids| == 5;
    assert ids[0] == "market_pressure" && ids[1] == "emission_pressure";
    assert ids[2] == "utility_demand" && ids[3] == "mm_activity" && ids[4] == "narrative";
    assert ids == ["market_pressure", "emission_pressure", "utility_demand", "mm_activity", "narrative"];
    var forces := DayForces(ExampleDay());
    assert forces.Keys == {"market_pressure", "emission_pressure"};
    forall id | id in ids[2..]
      ensures id !in forces
    {
      assert id[0] == 'u' || id[0] == 'n' || (id[0] == 'm' && id[1] == 'm');
    }
  }

  /** The worked example's bands: +0.4 market pressure lies wholly in the positive band,
      -0.2 emission pressure wholly in the negative band, and the three absent forces
      leave both of their bands at 0. */
  lemma WorkedExampleBands()
    ensures BuildRow(ExampleDay()).date == "2024-01-01"
    ensures Lookup(BuildRow(ExampleDay()).series, PosKey("market_pressure")) == 0.4
    ensures Lookup(BuildRow(ExampleDay()).series, NegKey("market_pressure")) == 0.0
    ensures Lookup(BuildRow(ExampleDay()).series, PosKey("emission_pressure")) == 0.0
    ensures Lookup(BuildRow(ExampleDay()).series, NegKey("emission_pressure")) == -0.2
    ensures Lookup(BuildRow(ExampleDay()).series, PosKey("utility_demand")) == 0.0
    ensures Lookup(BuildRow(ExampleDay()).series, NegKey("utility_demand")) == 0.0
    ensures Lookup(BuildRow(ExampleDay()).series, PosKey("mm_activity")) == 0.0
    ensures Lookup(BuildRow(ExampleDay()).series, NegKey("mm_activity")) == 0.0
    ensures Lookup(BuildRow(ExampleDay()).series, PosKey("narrative")) == 0.0
    ensures Lookup(BuildRow(ExampleDay()).series, NegKey("narrative")) == 0.0
  {
    var ids := Ids(FORCES_META);
    ExampleReadings();
    SeriesAt(FORCES_META, ExampleDay(), "market_pressure");
    SeriesAt(FORCES_META, ExampleDay(), "emission_pressure");
    assert ids[2..][0] == "utility_demand" && ids[2..][1] == "mm_activity" && ids[2..][2] == "narrative";
    SeriesAt(FORCES_META, ExampleDay(), "utility_demand");
    SeriesAt(FORCES_META, ExampleDay(), "mm_activity");
    SeriesAt(FORCES_META, ExampleDay(), "narrative");
  }

  /** The worked example's net: 0.4 - 0.2 = 0.2. */
  lemma WorkedExampleNet()
    ensures BuildRow(ExampleDay()).net == 0.2
  {
    var day := ExampleDay();
    var ids := Ids(FORCES_META);
    ExampleReadings();
    NetIsTotal(day);
    RawTotalZero(day, ids[2..]);
    assert ids[1..][1..] == ids[2..];
    assert RawTotal(day, ids[1..]) == -0.2 + RawTotal(day, ids[2..]);
    assert RawTotal(day, ids) == 0.4 + RawTotal(day, ids[1..]);
  }
}
