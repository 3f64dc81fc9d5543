/** The hover tooltip of the force chart: when it shows, which forces it lists, and
    which sign each value is shown with. Number formatting is not modelled; a shown
    value is its prefix, its colour and the value itself. */
module ForcesTooltip {
  import opened Wrappers
  import opened ForcesMeta
  import opened ForceSeries

  const POSITIVE_COLOR: string := "#00E5A0"
  const NEGATIVE_COLOR: string := "#FF5C5C"

  /** A row as the tooltip sees it: its `_raw` object and `_net` field may be absent. */
  datatype TooltipRow = TooltipRow(date: string, raw: Option<map<string, real>>, net: Option<real>)

  /** One entry of the chart's hover payload, carrying the hovered row if any. */
  datatype PayloadItem = PayloadItem(payload: Option<TooltipRow>)

  /** A value as displayed: sign prefix, text colour and the value. */
  datatype Signed = Signed(prefix: string, color: string, value: real)

  /** One listed force. */
  datatype TooltipLine = TooltipLine(id: string, name: string, color: string, mockup: bool, shown: Signed)

  /** The rendered tooltip: date, one line per registered force, and the net force. */
  datatype TooltipView = TooltipView(date: string, lines: seq<TooltipLine>, net: Signed)

  /** The chart row handed to the tooltip on hover. */
  function AsTooltipRow(r: Row): TooltipRow {
    TooltipRow(r.date, Some(r.raw), Some(r.net))
  }

  /** The sign rule: "+" and the positive colour exactly for values that are not
      negative, so 0 is shown as positive; otherwise no prefix and the negative colour. */
  function ShowSigned(v: real): (s: Signed)
    ensures s.value == v
    ensures s.prefix == "+" <==> v >= 0.0
    ensures s.prefix == "+" || s.prefix == ""
    ensures s.color == POSITIVE_COLOR <==> v >= 0.0
    ensures s.color == POSITIVE_COLOR || s.color == NEGATIVE_COLOR
  {
    if v >= 0.0 then Signed("+", POSITIVE_COLOR, v) else Signed("", NEGATIVE_COLOR, v)
  }

  /** One line per registry entry, in registry order, a missing raw value read as 0. */
  function TooltipLines(metas: seq<ForceMeta>, raw: map<string, real>): (lines: seq<TooltipLine>)
    ensures |lines| == |metas|
    ensures forall i :: 0 <= i < |metas| ==>
              && lines[i].id == metas[i].id && lines[i].name == metas[i].name
              && lines[i].color == metas[i].color && lines[i].mockup == metas[i].mockup
              && lines[i].shown == ShowSigned(Lookup(raw, metas[i].id))
  {
    if |metas| == 0 then []
    else
      var fm := metas[0];
      [TooltipLine(fm.id, fm.name, fm.color, fm.mockup, ShowSigned(Lookup(raw, fm.id)))] + TooltipLines(metas[1..], raw)
  }

  /** The tooltip renders nothing when inactive, when the payload is missing or empty,
      or when its first entry carries no row or a row without `_raw`; otherwise it shows
      the row's date, the forces of `metas` in registry order and the net (0 when missing). */
  function TooltipWith(metas: seq<ForceMeta>, active: bool, payload: Option<seq<PayloadItem>>): (v: Option<TooltipView>)
    ensures v.None? <==>
              || !active || payload.None? || |payload.value| == 0
              || payload.value[0].payload.None? || payload.value[0].payload.value.raw.None?
    ensures v.Some? ==>
              var row := payload.value[0].payload.value;
              && v.value.date == row.date
              && |v.value.lines| == |metas|
              && (forall i :: 0 <= i < |metas| ==>
                    && v.value.lines[i].id == metas[i].id
                    && v.value.lines[i].name == metas[i].name
                    && v.value.lines[i].shown.value == Lookup(row.raw.value, metas[i].id)
                    && (v.value.lines[i].shown.prefix == "+" <==> Lookup(row.raw.value, metas[i].id) >= 0.0))
              && v.value.net.value == row.net.GetOr(0.0)
              && (v.value.net.prefix == "+" <==> row.net.GetOr(0.0) >= 0.0)
    ensures v.Some? ==>
              var row := payload.value[0].payload.value;
              && v.value.lines == TooltipLines(metas, row.raw.value)
              && v.value.net == ShowSigned(row.net.GetOr(0.0))
  {
    if !active || payload.None? || |payload.value| == 0 then None
    else
      match payload.value[0].payload
      case None => None
      case Some(row) =>
        match row.raw
        case None => None
        case Some(raw) =>
          Some(TooltipView(row.date, TooltipLines(metas, raw), ShowSigned(row.net.GetOr(0.0))))
  }

  /** The tooltip over the fixed registry. */
  function Tooltip(active: bool, payload: Option<seq<PayloadItem>>): Option<TooltipView> {
    TooltipWith(FORCES_META, active, payload)
  }

  /** The tooltip's sign and the chart's bands agree except at 0: a value is shown
      with "+" exactly when its negative band is empty, and a value of exactly 0 is
      shown with "+" although it lies in neither band. */
  lemma SignMatchesBands(v: real)
    ensures ShowSigned(v).prefix == "+" <==> SplitValue(v).neg == 0.0
    ensures ShowSigned(v).prefix == "" <==> SplitValue(v).neg < 0.0
    ensures ShowSigned(v).prefix == "+" && v != 0.0 <==> SplitValue(v).pos > 0.0
    ensures v == 0.0 ==> ShowSigned(v).prefix == "+" && ShowSigned(v).color == POSITIVE_COLOR
                         && SplitValue(v).pos == 0.0 && SplitValue(v).neg == 0.0
  {
  }

  /** The raw value and negative band of the `i`-th listed force in a built row. */
  lemma LineOfRow(metas: seq<ForceMeta>, day: DayRecord, i: int)
    requires 0 <= i < |metas|
    ensures Lookup(BuildRowWith(metas, day).raw, metas[i].id) == ForceValue(day, metas[i].id)
    ensures NegKey(metas[i].id) in BuildRowWith(metas, day).series
    ensures BuildRowWith(metas, day).series[NegKey(metas[i].id)] == SplitValue(ForceValue(day, metas[i].id)).neg
  {
    FillSpec(Row(day.date, map[], map[], 0.0), DayForces(day), metas);
    assert Ids(metas)[i] == metas[i].id;
  }

  /** Hovering a chart row shows that day's date, the day's reading of every listed
      force (0 when absent), each with "+" exactly when its negative band is empty, and
      the day's net force. The registry's ids are distinct, as those of `FORCES_META`
      are (`RegistryIdsDistinct`), so `_net` sums each `_raw` entry once. */
  lemma TooltipOfChartRow(metas: seq<ForceMeta>, day: DayRecord)
    requires Distinct(Ids(metas))
    ensures var r := BuildRowWith(metas, day);
            var v := TooltipWith(metas, true, Some([PayloadItem(Some(AsTooltipRow(r)))]));
            && v.Some?
            && v.value.date == day.date
            && |v.value.lines| == |metas|
            && (forall i :: 0 <= i < |metas| ==>
                  && v.value.lines[i].shown.value == ForceValue(day, metas[i].id)
                  && NegKey(metas[i].id) in r.series
                  && (v.value.lines[i].shown.prefix == "+" <==> r.series[NegKey(metas[i].id)] == 0.0))
            && v.value.net.value == RawTotal(day, Ids(metas))
  {
    var r := BuildRowWith(metas, day);
    var v := TooltipWith(metas, true, Some([PayloadItem(Some(AsTooltipRow(r)))]));
    var filled := Fill(Row(day.date, map[], map[], 0.0), DayForces(day), metas);
    FillSpec(Row(day.date, map[], map[], 0.0), DayForces(day), metas);
    SumKeysIsRawTotal(filled.raw, day, Ids(metas));
    forall i | 0 <= i < |metas|
      ensures v.value.lines[i].shown.value == ForceValue(day, metas[i].id)
      ensures NegKey(metas[i].id) in r.series
      ensures v.value.lines[i].shown.prefix == "+" <==> r.series[NegKey(metas[i].id)] == 0.0
    {
      LineOfRow(metas, day, i);
      SignMatchesBands(ForceValue(day, metas[i].id));
    }
  }
}
