/** src/pages/dashboard/temperatures-chart.tsx: the dashboard's variant of the chart
    projection. It keeps a fixed window of 240 entries and has no guard for a missing or
    zero anchor. Labels, plate fields and the tick formatter are the ones of
    `TemperaturesChart`. */
module DashboardChart {
  import opened Wrappers
  import opened DataStore
  import Chart = TemperaturesChart

  const Window: nat := 240

  /** `columnDataFormatted`: the last 240 entries, labelled from the first stored entry. */
  function FormatColumnData(columnData: seq<ColumnDataEntry>): (rows: seq<Chart.ChartRow>)
    ensures |rows| == Min(|columnData|, Window)
  {
    var window := Chart.SliceLast(columnData, Window);
    seq(|window|, j requires 0 <= j < |window| => Chart.FormatRow(window[j], columnData[0].timestamp))
  }

  lemma FormatRowAt(columnData: seq<ColumnDataEntry>, j: nat)
    requires j < |FormatColumnData(columnData)|
    ensures var rows := FormatColumnData(columnData);
      rows[j] == Chart.FormatRow(columnData[|columnData| - |rows| + j], columnData[0].timestamp)
  {
    Chart.SliceLastAt(columnData, Window, j);
  }

  /** Every row is the entry at the same place in the last 240, labelled by its distance from
      `columnData[0]` whatever that entry's timestamp. */
  lemma FormatWindow(columnData: seq<ColumnDataEntry>)
    ensures var rows := FormatColumnData(columnData);
      forall j :: 0 <= j < |rows| ==>
        rows[j] == Chart.FormatRow(columnData[|columnData| - |rows| + j], columnData[0].timestamp)
  {
    var rows := FormatColumnData(columnData);
    forall j | 0 <= j < |rows|
      ensures rows[j] == Chart.FormatRow(columnData[|columnData| - |rows| + j], columnData[0].timestamp)
    {
      FormatRowAt(columnData, j);
    }
  }

  /** On the store's initial placeholder the dashboard draws one row at "00:00" with no plates,
      where the component chart, which refuses a zero anchor, draws nothing. */
  lemma PlaceholderDiffers(maxDataLength: nat)
    ensures FormatColumnData([InitialEntry]) == [Chart.ChartRow("00:00", [])]
    ensures Chart.FormatColumnData(Some([InitialEntry]), maxDataLength) == []
  {
    var rows := FormatColumnData([InitialEntry]);
    FormatRowAt([InitialEntry], 0);
    ZeroLabel();
    assert Chart.PlateFields([]) == [];
    assert rows[0] == Chart.ChartRow("00:00", []);
  }

  lemma ZeroLabel()
    ensures Chart.ElapsedLabel(0) == "00:00"
  {
    Chart.TwoDigits(0);
    assert Chart.Pad2(0) == "00";
    assert Chart.JsRem(0, 60) == 0;
  }

  /** `plateKeys`: the keys of the first row other than `time`; the page needs a first row. */
  function PlateKeys(rows: seq<Chart.ChartRow>): seq<string>
    requires rows != []
  {
    Chart.Filter(rows[0].Keys(), "time")
  }

  /** The dashboard draws `plate1`..`plateN`, one line per temperature of its first row's entry. */
  lemma PlateKeysOfProjection(columnData: seq<ColumnDataEntry>)
    requires columnData != []
    ensures var rows := FormatColumnData(columnData);
      var first := columnData[|columnData| - |rows|];
      PlateKeys(rows) == seq(|first.temperatures|, i requires 0 <= i < |first.temperatures| => Chart.PlateKey(i))
  {
    var rows := FormatColumnData(columnData);
    FormatRowAt(columnData, 0);
    Chart.RowPlateKeys(rows[0]);
  }
}
