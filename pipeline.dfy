/** The crash-record pipeline: load-time filter, normalization, and the
    three interactive filters that decide which rows are drawn. */
module Pipeline {

  import opened Wrappers
  import opened Sequences
  import opened JsText
  import opened Tables

  /** A parsed CSV row: column name to text value. */
  type Record = map<string, string>

  /** `row[name]`: the value, or `None` for `undefined`. */
  function Field(row: Record, name: string): Option<string>
  {
    if name in row then Some(row[name]) else None
  }

  // ---------------------------------------------------------------------
  // Load-time structural filter
  // ---------------------------------------------------------------------

  /** Not in a parking lot, and `CityCrash == 1` with JavaScript's loose
      equality. */
  predicate KeptAtLoad(row: Record)
  {
    Field(row, "ParkingLotIndicator") != Some("Y") && LooseEqualsOne(Field(row, "CityCrash"))
  }

  /** `filteredData`: the rows kept at load time, in file order. */
  function LoadFilter(crashData: seq<Record>): (r: seq<Record>)
    ensures IsSubseq(r, crashData)
    ensures forall i :: 0 <= i < |r| ==> r[i] in crashData && Field(r[i], "ParkingLotIndicator") != Some("Y")
                                          && LooseEqualsOne(Field(r[i], "CityCrash"))
    ensures forall i :: 0 <= i < |crashData| && KeptAtLoad(crashData[i]) ==> crashData[i] in r
    ensures |r| == CountWhere(crashData, KeptAtLoad)
  {
    Filter(crashData, KeptAtLoad)
  }

  // ---------------------------------------------------------------------
  // Normalization
  // ---------------------------------------------------------------------

  /** KABCO is one of the five codes and the manner code is a key of the
      manner table or `"UNKNOWN"`. */
  predicate IsNormalized(row: Record)
  {
    && "KABCO" in row && row["KABCO"] in SeverityCodes
    && "MannerofCollisionCode" in row
    && (row["MannerofCollisionCode"] in MannerOfCollision || row["MannerofCollisionCode"] == "UNKNOWN")
  }

  /** One iteration of the normalization loop over `filteredData`. */
  function NormalizeRow(row: Record): (r: Record)
    ensures IsNormalized(r)
    ensures Field(row, "KABCO").Some? && row["KABCO"] in SeverityCodes ==> r["KABCO"] == row["KABCO"]
    ensures !(Field(row, "KABCO").Some? && row["KABCO"] in SeverityCodes) ==> r["KABCO"] == "O"
    ensures Field(row, "MannerofCollisionCode").Some? && row["MannerofCollisionCode"] in MannerOfCollision
            ==> r["MannerofCollisionCode"] == row["MannerofCollisionCode"]
    ensures !(Field(row, "MannerofCollisionCode").Some? && row["MannerofCollisionCode"] in MannerOfCollision)
            ==> r["MannerofCollisionCode"] == "UNKNOWN"
    ensures forall f :: f != "KABCO" && f != "MannerofCollisionCode" ==> Field(r, f) == Field(row, f)
  {
    var k := if "KABCO" in row && row["KABCO"] in SeverityCodes then row else row["KABCO" := "O"];
    if "MannerofCollisionCode" in k && k["MannerofCollisionCode"] in MannerOfCollision then k
    else k["MannerofCollisionCode" := "UNKNOWN"]
  }

  /** Normalizing a row that is already normalized changes nothing; hence
      normalizing twice is normalizing once. */
  lemma NormalizeIdempotent(row: Record)
    ensures IsNormalized(row) ==> NormalizeRow(row) == row
    ensures NormalizeRow(NormalizeRow(row)) == NormalizeRow(row)
  {
    var n := NormalizeRow(row);
    assert n["MannerofCollisionCode"] in MannerOfCollision || n["MannerofCollisionCode"] == "UNKNOWN";
    assert "UNKNOWN" !in MannerOfCollision;
    if IsNormalized(row) {
      assert "UNKNOWN" !in MannerOfCollision;
    }
  }

  function NormalizeAll(rows: seq<Record>): (r: seq<Record>)
    ensures |r| == |rows|
    ensures forall i :: 0 <= i < |r| ==> r[i] == NormalizeRow(rows[i]) && IsNormalized(r[i])
  {
    seq(|rows|, i requires 0 <= i < |rows| => NormalizeRow(rows[i]))
  }

  /** The normalization loop, rewriting each row of `filteredData` in place. */
  method NormalizeRows(rows: array<Record>)
    modifies rows
    ensures rows[..] == NormalizeAll(old(rows[..]))
  {
    for i := 0 to rows.Length
      invariant forall j :: 0 <= j < i ==> rows[j] == NormalizeRow(old(rows[j]))
      invariant forall j :: i <= j < rows.Length ==> rows[j] == old(rows[j])
    {
      rows[i] := NormalizeRow(rows[i]);
    }
  }

  // ---------------------------------------------------------------------
  // Time filter
  // ---------------------------------------------------------------------

  /** `parseInt(row.CollisionTime, 10)` lies in the range; NaN compares false. */
  predicate InTimeRange(row: Record, range: TimeRange)
  {
    match ParseInt(JsString(Field(row, "CollisionTime")))
    case None => false
    case Some(t) => InRange(t, range)
  }

  function InTimeRangeP(range: TimeRange): Record -> bool
  {
    row => InTimeRange(row, range)
  }

  /** `timeFilter(filteredData, timeRange)`. */
  function TimeFilter(rows: seq<Record>, range: TimeRange): (r: seq<Record>)
    ensures IsSubseq(r, rows)
    ensures forall i :: 0 <= i < |r| ==> r[i] in rows && ParseInt(JsString(Field(r[i], "CollisionTime"))).Some?
                                          && InRange(ParseInt(JsString(Field(r[i], "CollisionTime"))).value, range)
    ensures forall i :: 0 <= i < |rows| && InTimeRange(rows[i], range) ==> rows[i] in r
    ensures |r| == CountWhere(rows, InTimeRangeP(range))
  {
    Filter(rows, InTimeRangeP(range))
  }

  /** Widening the time range can only add rows. */
  lemma {:induction false} TimeFilterMonotonic(rows: seq<Record>, narrow: TimeRange, wide: TimeRange)
    requires wide.lo <= narrow.lo && narrow.hi <= wide.hi
    ensures IsSubseq(TimeFilter(rows, narrow), TimeFilter(rows, wide))
  {
    FilterMonotonic(rows, InTimeRangeP(narrow), InTimeRangeP(wide));
  }

  // ---------------------------------------------------------------------
  // Manner and mode filters
  // ---------------------------------------------------------------------

  /** JavaScript truthiness of a filter value: `null` and `""` switch it off. */
  predicate Active(filter: Option<string>)
  {
    filter.Some? && filter.value != ""
  }

  /** The manner test: passes when the filter is off, otherwise only when the
      row's manner code is exactly the filter value. */
  predicate MannerPasses(row: Record, manner: Option<string>)
  {
    !Active(manner) || Field(row, "MannerofCollisionCode") == Some(manner.value)
  }

  /** The mode test: some listed indicator field of the row is the string
      `"1"`. */
  predicate AnyFactorSet(row: Record, factors: seq<string>)
  {
    exists i :: 0 <= i < |factors| && Field(row, factors[i]) == Some("1")
  }

  /** The filter value names a travel mode, or is switched off. */
  predicate ModeKnown(mode: Option<string>)
  {
    !Active(mode) || mode.value in ModeMapping
  }

  /** What the filters mean: the AND of the manner test and the mode test. */
  predicate Matches(row: Record, manner: Option<string>, mode: Option<string>)
  {
    && MannerPasses(row, manner)
    && (!Active(mode) || (mode.value in ModeMapping && AnyFactorSet(row, ModeMapping[mode.value])))
  }

  function MatchesP(manner: Option<string>, mode: Option<string>): Record -> bool
  {
    row => Matches(row, manner, mode)
  }

  /** The handlers' `filter` callback, evaluated left to right: `None` when
      `modeMapping[modeFilter]` is `undefined` and `.some` throws. */
  function HandlerTest(row: Record, manner: Option<string>, mode: Option<string>): (r: Option<bool>)
    ensures r.None? <==> MannerPasses(row, manner) && !ModeKnown(mode)
    ensures r.Some? ==> r.value == Matches(row, manner, mode)
  {
    if !MannerPasses(row, manner) then Some(false)
    else if !Active(mode) then Some(true)
    else if mode.value in ModeMapping then Some(AnyFactorSet(row, ModeMapping[mode.value]))
    else None
  }

  /** `rows.filter(callback)`: the callback throwing on any row aborts it. */
  function HandlerFilter(rows: seq<Record>, manner: Option<string>, mode: Option<string>): (r: Option<seq<Record>>)
    ensures r.None? <==> exists i :: 0 <= i < |rows| && HandlerTest(rows[i], manner, mode).None?
    ensures r.Some? ==> r.value == Filter(rows, MatchesP(manner, mode))
  {
    if rows == [] then Some([])
    else
      match HandlerTest(rows[0], manner, mode)
      case None => None
      case Some(keep) =>
        match HandlerFilter(rows[1..], manner, mode)
        case None =>
          assert exists i :: 1 <= i < |rows| && HandlerTest(rows[i], manner, mode).None?;
          None
        case Some(rest) =>
          assert forall i :: 1 <= i < |rows| ==> HandlerTest(rows[i], manner, mode).Some?;
          Some(if keep then [rows[0]] + rest else rest)
  }

  /** A known (or switched-off) mode never makes the handlers throw. */
  lemma KnownModeNeverThrows(rows: seq<Record>, manner: Option<string>, mode: Option<string>)
    requires ModeKnown(mode)
    ensures HandlerFilter(rows, manner, mode).Some?
  {
  }

  /** The set a handler renders: time filter, then manner and mode, always
      from the full load-time data. */
  function Visible(data: seq<Record>, range: TimeRange, manner: Option<string>, mode: Option<string>)
    : (r: Option<seq<Record>>)
    ensures ModeKnown(mode) ==> r.Some?
    ensures r.Some? ==> IsSubseq(r.value, data)
    ensures r.Some? ==> forall i :: 0 <= i < |r.value| ==>
      r.value[i] in data && InTimeRange(r.value[i], range) && Matches(r.value[i], manner, mode)
    ensures r.Some? ==> forall i :: 0 <= i < |data| && InTimeRange(data[i], range) && Matches(data[i], manner, mode)
                                    ==> data[i] in r.value
    ensures r.Some? ==> r.value == Filter(data, VisibleP(range, manner, mode))
  {
    var byTime := TimeFilter(data, range);
    var r := HandlerFilter(byTime, manner, mode);
    if r.Some? then
      SubseqTransitive(r.value, byTime, data);
      FilterFilter(data, InTimeRangeP(range), MatchesP(manner, mode), VisibleP(range, manner, mode));
      r
    else r
  }

  /** The rows a handler shows: in the time range and matching both
      dropdown filters. */
  function VisibleP(range: TimeRange, manner: Option<string>, mode: Option<string>): Record -> bool
  {
    row => InTimeRange(row, range) && Matches(row, manner, mode)
  }

  /** Clearing the manner filter can only add rows; and whenever the
      handlers get through with the manner filter cleared, they also get
      through with it set. */
  lemma ClearingMannerWidens(rows: seq<Record>, manner: Option<string>, cleared: Option<string>, mode: Option<string>)
    requires !Active(cleared)
    requires HandlerFilter(rows, cleared, mode).Some?
    ensures HandlerFilter(rows, manner, mode).Some?
    ensures IsSubseq(HandlerFilter(rows, manner, mode).value, HandlerFilter(rows, cleared, mode).value)
  {
    if rows != [] {
      assert HandlerTest(rows[0], cleared, mode).Some?;
      assert ModeKnown(mode);
    }
    FilterMonotonic(rows, MatchesP(manner, mode), MatchesP(cleared, mode));
  }

  /** Clearing the mode filter can only add rows, and never throws. */
  lemma ClearingModeWidens(rows: seq<Record>, manner: Option<string>, mode: Option<string>, cleared: Option<string>)
    requires !Active(cleared)
    ensures HandlerFilter(rows, manner, cleared).Some?
    ensures HandlerFilter(rows, manner, mode).Some? ==>
      IsSubseq(HandlerFilter(rows, manner, mode).value, HandlerFilter(rows, manner, cleared).value)
  {
    FilterMonotonic(rows, MatchesP(manner, mode), MatchesP(manner, cleared));
  }
}
