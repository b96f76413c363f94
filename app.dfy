/** `fetchData` and the three filter listeners: the state they share and
    what each listener leaves on the map. */
module App {

  import opened Wrappers
  import opened Sequences
  import opened JsText
  import opened Tables
  import opened Pipeline
  import opened Render
  import opened Legend

  /** The rows a handler draws in group `key`: in the time range, matching
      both dropdown filters, of that tier and with parseable coordinates. */
  function ShownP(range: TimeRange, manner: Option<string>, mode: Option<string>, key: string): Record -> bool
  {
    row => InTimeRange(row, range) && Matches(row, manner, mode) && CoordsParse(row) && Field(row, "KABCO") == Some(key)
  }

  /** After a listener re-renders, group `key` holds, in load order, one
      marker for every load-time row that passes all three filters and
      would be drawn in that group. */
  lemma {:induction false} HandlerLayer(data: seq<Record>, range: TimeRange, manner: Option<string>, mode: Option<string>, key: string)
    requires ModeKnown(mode)
    requires key in LayerKeys
    ensures Visible(data, range, manner, mode).Some?
    ensures Rendered(Visible(data, range, manner, mode).value, None, None)[key]
      == Markers(Filter(data, ShownP(range, manner, mode, key)), key)
  {
    var shown := Visible(data, range, manner, mode).value;
    RenderedGroups(shown, None, None, key);
    FilterFilter(data, VisibleP(range, manner, mode), InLayerP(key, None, None), ShownP(range, manner, mode, key));
  }

  /** A drawable row whose `CollisionTime` does not parse is drawn by the
      first render, which applies no time filter, but by no listener, since
      every listener applies the time filter, even for "All Crashes". */
  lemma {:induction false} UntimedRowOnlyInitially(data: seq<Record>, i: nat, range: TimeRange, manner: Option<string>, mode: Option<string>)
    requires i < |data|
    requires CoordsParse(data[i]) && Field(data[i], "KABCO").Some? && data[i]["KABCO"] in LayerKeys
    requires ParseInt(JsString(Field(data[i], "CollisionTime"))).None?
    ensures data[i] in Filter(data, InLayerP(data[i]["KABCO"], None, None))
    ensures exists m :: m in Rendered(data, None, None)[data[i]["KABCO"]] && m.row == data[i]
    ensures Visible(data, range, manner, mode).Some? ==> data[i] !in Visible(data, range, manner, mode).value
  {
    var key := data[i]["KABCO"];
    var drawn := Filter(data, InLayerP(key, None, None));
    assert InLayerP(key, None, None)(data[i]);
    var j :| 0 <= j < |drawn| && drawn[j] == data[i];
    RenderedGroups(data, None, None, key);
    assert Markers(drawn, key)[j].row == data[i];
  }

  /** The count shown in a tier's legend label: the rows whose KABCO code
      is `id`. */
  function TierCount(rows: seq<Record>, id: string): nat
  {
    |Filter(rows, (row: Record) => Field(row, "KABCO") == Some(id))|
  }

  /** Once the rows are normalized, the five legend counts add up to the
      number of load-time rows: every row is counted in exactly one tier. */
  lemma {:induction false} TierCountsPartition(rows: seq<Record>)
    requires forall i :: 0 <= i < |rows| ==> IsNormalized(rows[i])
    ensures TierCount(rows, "K") + TierCount(rows, "A") + TierCount(rows, "B")
      + TierCount(rows, "C") + TierCount(rows, "O") == |rows|
  {
    if rows != [] {
      TierCountsPartition(rows[1..]);
      assert rows[0]["KABCO"] in SeverityCodes;
    }
  }

  /** The rows `fetchData` keeps, as an array normalized in place. */
  method LoadRows(crashData: seq<Record>) returns (rows: seq<Record>)
    ensures rows == NormalizeAll(LoadFilter(crashData))
  {
    var kept := LoadFilter(crashData);
    var normalized := new Record[|kept|](i requires 0 <= i < |kept| => kept[i]);
    assert normalized[..] == kept;
    NormalizeRows(normalized);
    rows := normalized[..];
  }

  /** The state `fetchData` builds and the slider and dropdown listeners
      share. */
  class CrashMap {
    /** `filteredData`: the load-time rows after normalization. */
    const data: seq<Record>
    const crashLayers: CrashLayers
    const legend: LegendControl
    var mannerFilter: Option<string>
    var modeFilter: Option<string>
    var currentTimeRange: TimeRange

    ghost predicate Valid()
      reads this, crashLayers, legend
    {
      crashLayers.Valid() && legend.Valid()
    }

    /** `fetchData(crashData)`: keep the in-city, non-parking-lot rows,
        normalize their codes in place, create one empty group per tier,
        render with no filters, and build the legend over the layers
        attached so far. */
    constructor FetchData(crashData: seq<Record>)
      ensures Valid()
      ensures data == NormalizeAll(LoadFilter(crashData))
      ensures forall i :: 0 <= i < |data| ==> IsNormalized(data[i])
      ensures mannerFilter == None && modeFilter == None && currentTimeRange == TimeRange(0, 2359)
      ensures crashLayers.groups == Rendered(data, None, None)
      ensures legend.entries == Entries && legend.onMap == InitiallyOnMap
    {
      var rows := LoadRows(crashData);
      var layers := new CrashLayers();
      var threw := layers.RenderCrashes(rows, None, None);
      EntriesDistinct();
      var items := new LegendControl(Entries, InitiallyOnMap);
      data := rows;
      crashLayers := layers;
      legend := items;
      mannerFilter := None;
      modeFilter := None;
      currentTimeRange := TimeRange(0, 2359);
    }

    /** The common tail of the listeners: time filter, then the dropdown
        filters, then `renderCrashes(filtered, crashLayers)` with its filter
        parameters left undefined. The dropdown filter throws, before
        anything is drawn, when the mode filter is a non-empty string that
        is not a key of `modeMapping` and some time-filtered row passes the
        manner test. */
    method Refresh() returns (completed: bool)
      requires Valid()
      modifies crashLayers
      ensures Valid()
      ensures completed <==> Visible(data, currentTimeRange, mannerFilter, modeFilter).Some?
      ensures completed ==> crashLayers.groups == Rendered(Visible(data, currentTimeRange, mannerFilter, modeFilter).value, None, None)
      ensures !completed ==> crashLayers.groups == old(crashLayers.groups)
    {
      var filteredByTime := TimeFilter(data, currentTimeRange);
      var filtered := HandlerFilter(filteredByTime, mannerFilter, modeFilter);
      if filtered.None? {
        return false;
      }
      var threw := crashLayers.RenderCrashes(filtered.value, None, None);
      completed := true;
    }

    /** The slider's `input` listener. An index outside `timeGroups` throws
        before anything changes. */
    method OnSliderInput(index: int) returns (completed: bool)
      requires Valid()
      modifies this, crashLayers
      ensures Valid()
      ensures mannerFilter == old(mannerFilter) && modeFilter == old(modeFilter)
      ensures 0 <= index < |TimeGroups| ==> currentTimeRange == TimeGroups[index].range
      ensures !(0 <= index < |TimeGroups|) ==> currentTimeRange == old(currentTimeRange)
      ensures completed <==> 0 <= index < |TimeGroups| && Visible(data, currentTimeRange, mannerFilter, modeFilter).Some?
      ensures completed ==> crashLayers.groups == Rendered(Visible(data, currentTimeRange, mannerFilter, modeFilter).value, None, None)
      ensures !completed ==> crashLayers.groups == old(crashLayers.groups)
    {
      if !(0 <= index < |TimeGroups|) {
        return false;
      }
      currentTimeRange := TimeGroups[index].range;
      completed := Refresh();
    }

    /** The manner dropdown's `change` listener. */
    method OnMannerChange(value: string) returns (completed: bool)
      requires Valid()
      modifies this, crashLayers
      ensures Valid()
      ensures mannerFilter == Some(value)
      ensures modeFilter == old(modeFilter) && currentTimeRange == old(currentTimeRange)
      ensures completed <==> Visible(data, currentTimeRange, mannerFilter, modeFilter).Some?
      ensures completed ==> crashLayers.groups == Rendered(Visible(data, currentTimeRange, mannerFilter, modeFilter).value, None, None)
      ensures !completed ==> crashLayers.groups == old(crashLayers.groups)
    {
      mannerFilter := Some(value);
      completed := Refresh();
    }

    /** The mode dropdown's `change` listener. */
    method OnModeChange(value: string) returns (completed: bool)
      requires Valid()
      modifies this, crashLayers
      ensures Valid()
      ensures modeFilter == Some(value)
      ensures mannerFilter == old(mannerFilter) && currentTimeRange == old(currentTimeRange)
      ensures completed <==> Visible(data, currentTimeRange, mannerFilter, modeFilter).Some?
      ensures completed ==> crashLayers.groups == Rendered(Visible(data, currentTimeRange, mannerFilter, modeFilter).value, None, None)
      ensures !completed ==> crashLayers.groups == old(crashLayers.groups)
    {
      modeFilter := Some(value);
      completed := Refresh();
    }
  }
}
