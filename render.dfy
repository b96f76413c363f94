/** `renderCrashes`: the per-severity layer groups, cleared and refilled on
    every render. */
module Render {

  import opened Wrappers
  import opened Sequences
  import opened JsText
  import opened Tables
  import opened Pipeline

  /** A circle marker for one row, styled by its severity tier. */
  datatype Marker = Marker(row: Record, radius: real, fillColor: string)

  /** What the `forEach` callback does with one row. */
  datatype Step = Skip | Place(key: string, marker: Marker) | Throw

  /** Both coordinates survive `parseFloat` as numbers. */
  predicate CoordsParse(row: Record)
  {
    FloatParses(JsString(Field(row, "Latitude"))) && FloatParses(JsString(Field(row, "Longitude")))
  }

  /** The callback of `data.forEach` in `renderCrashes`, with its early
      returns in source order. */
  function RenderStep(row: Record, manner: Option<string>, mode: Option<string>): (r: Step)
    ensures r.Place? ==> r.key in LayerKeys && Field(row, "KABCO") == Some(r.key) && r.marker.row == row
    ensures r.Place? <==> CoordsParse(row) && Field(row, "KABCO").Some? && row["KABCO"] in LayerKeys
                          && Matches(row, manner, mode)
    ensures r.Throw? <==> CoordsParse(row) && Field(row, "KABCO").Some? && row["KABCO"] in LayerKeys
                          && MannerPasses(row, manner) && !ModeKnown(mode)
  {
    if !CoordsParse(row) then Skip
    else
      var kabco := JsString(Field(row, "KABCO"));
      FindSeverity(kabco);
      match FindProp(LayerProps, kabco)
      case None => Skip
      case Some(prop) =>
        if !MannerPasses(row, manner) then Skip
        else if Active(mode) && mode.value !in ModeMapping then Throw
        else if Active(mode) && !AnyFactorSet(row, ModeMapping[mode.value]) then Skip
        else Place(kabco, Marker(row, prop.size, prop.color))
  }

  /** The `forEach` callback with the filter arguments bound. */
  function Callback(manner: Option<string>, mode: Option<string>): Record -> Step
  {
    row => RenderStep(row, manner, mode)
  }

  /** Every marker a callback places goes to an existing group. */
  ghost predicate KeysKnown(callback: Record -> Step)
  {
    forall row :: callback(row).Place? ==> callback(row).key in LayerKeys
  }

  lemma CallbackKeysKnown(manner: Option<string>, mode: Option<string>)
    ensures KeysKnown(Callback(manner, mode))
  {
  }

  /** A callback's decision for every row, in order. */
  function StepsBy(rows: seq<Record>, callback: Record -> Step): (r: seq<Step>)
    ensures |r| == |rows|
    ensures forall i :: 0 <= i < |rows| ==> r[i] == callback(rows[i])
  {
    seq(|rows|, i requires 0 <= i < |rows| => callback(rows[i]))
  }

  /** The render callback's decision for every row, in order. */
  function StepsOf(rows: seq<Record>, manner: Option<string>, mode: Option<string>): (r: seq<Step>)
    ensures |r| == |rows|
    ensures forall i :: 0 <= i < |rows| ==> r[i] == RenderStep(rows[i], manner, mode)
    ensures forall i :: 0 <= i < |rows| && r[i].Place? ==> r[i].key in LayerKeys
  {
    StepsBy(rows, Callback(manner, mode))
  }

  /** What a step adds to the group `key`. */
  function Added(step: Step, key: string): seq<Marker>
  {
    if step.Place? && step.key == key then [step.marker] else []
  }

  /** The markers that a run of steps adds to the group `key`, in order. */
  function Placed(steps: seq<Step>, key: string): seq<Marker>
  {
    if steps == [] then []
    else Placed(steps[..|steps| - 1], key) + Added(steps[|steps| - 1], key)
  }

  /** The index of the first step that throws, or `|steps|`. */
  function FirstThrow(steps: seq<Step>): (n: nat)
    ensures n <= |steps|
    ensures forall i :: 0 <= i < n ==> !steps[i].Throw?
    ensures n < |steps| ==> steps[n].Throw?
  {
    if steps == [] then 0
    else if steps[0].Throw? then 0
    else 1 + FirstThrow(steps[1..])
  }

  /** The groups after one more step: its marker, if any, appended to the
      group of its key. */
  function Apply(groups: map<string, seq<Marker>>, step: Step): (r: map<string, seq<Marker>>)
    ensures r.Keys == groups.Keys
  {
    if step.Place? && step.key in groups then groups[step.key := groups[step.key] + [step.marker]] else groups
  }

  /** The layer groups once a run of steps has been applied to cleared groups. */
  function Layers(steps: seq<Step>): (r: map<string, seq<Marker>>)
    ensures r.Keys == LayerKeys
  {
    if steps == [] then map key | key in LayerKeys :: []
    else Apply(Layers(steps[..|steps| - 1]), steps[|steps| - 1])
  }

  /** Each group holds exactly the markers the steps placed under its key,
      in order. */
  lemma {:induction false} LayersPlaced(steps: seq<Step>, key: string)
    requires key in LayerKeys
    ensures Layers(steps)[key] == Placed(steps, key)
  {
    if steps != [] {
      LayersPlaced(steps[..|steps| - 1], key);
    }
  }

  /** Clearing the groups gives the groups of no steps at all. */
  lemma LayersEmpty(groups: map<string, seq<Marker>>)
    requires groups.Keys == LayerKeys
    ensures (map k | k in groups :: []) == Layers([])
  {
  }

  /** The groups after a prefix of steps and then one more. */
  lemma LayersNext(steps: seq<Step>, i: nat)
    requires i < |steps|
    ensures Layers(steps[..i + 1]) == Apply(Layers(steps[..i]), steps[i])
  {
    assert steps[..i + 1][..i] == steps[..i];
  }

  /** The layer groups after `renderCrashes(rows, …, manner, mode)`: the
      steps before the first throwing callback, applied to cleared groups. */
  function Rendered(rows: seq<Record>, manner: Option<string>, mode: Option<string>): map<string, seq<Marker>>
  {
    RenderedBy(rows, Callback(manner, mode))
  }

  /** The layer groups after clearing them and running `callback` on each
      row until one throws. */
  function RenderedBy(rows: seq<Record>, callback: Record -> Step): map<string, seq<Marker>>
  {
    var steps := StepsBy(rows, callback);
    Layers(steps[..FirstThrow(steps)])
  }

  /** Rows that belong to layer `key` under the given filters. */
  function InLayerP(key: string, manner: Option<string>, mode: Option<string>): Record -> bool
  {
    row => CoordsParse(row) && Field(row, "KABCO") == Some(key) && Matches(row, manner, mode)
  }

  /** The marker of a row in layer `key`, styled by that tier. */
  function Markers(rows: seq<Record>, key: string): (r: seq<Marker>)
    requires key in LayerKeys
    ensures |r| == |rows|
  {
    FindSeverity(key);
    var prop := FindProp(LayerProps, key).value;
    seq(|rows|, i requires 0 <= i < |rows| => Marker(rows[i], prop.size, prop.color))
  }

  lemma MarkersAppend(a: seq<Record>, b: seq<Record>, key: string)
    requires key in LayerKeys
    ensures Markers(a + b, key) == Markers(a, key) + Markers(b, key)
  {
    var l, r := Markers(a, key), Markers(b, key);
    forall i | 0 <= i < |a| + |b|
      ensures Markers(a + b, key)[i] == (l + r)[i]
    {
      if i < |a| {
        assert (a + b)[i] == a[i];
      } else {
        assert (a + b)[i] == b[i - |a|];
      }
    }
  }

  lemma OneRowAdded(row: Record, manner: Option<string>, mode: Option<string>, key: string)
    requires ModeKnown(mode)
    requires key in LayerKeys
    ensures Added(RenderStep(row, manner, mode), key) == Markers(Filter([row], InLayerP(key, manner, mode)), key)
  {
    FindSeverity(key);
    var b := Filter([row], InLayerP(key, manner, mode));
    assert [row][1..] == [];
    if InLayerP(key, manner, mode)(row) {
      assert b == [row];
    } else {
      assert b == [];
    }
  }

  lemma StepsOfSnoc(rows: seq<Record>, manner: Option<string>, mode: Option<string>)
    requires rows != []
    ensures StepsOf(rows, manner, mode)
      == StepsOf(rows[..|rows| - 1], manner, mode) + [RenderStep(rows[|rows| - 1], manner, mode)]
  {
  }

  /** With a known (or no) mode no callback throws, so every row is seen. */
  lemma KnownModeRendersAll(rows: seq<Record>, manner: Option<string>, mode: Option<string>)
    requires ModeKnown(mode)
    ensures FirstThrow(StepsOf(rows, manner, mode)) == |rows|
  {
  }

  /** With a known (or no) mode, group `key` receives exactly the rows with
      that KABCO code, parseable coordinates and matching the filters, in
      input order, each styled as its tier. */
  lemma {:induction false} RenderedLayer(rows: seq<Record>, manner: Option<string>, mode: Option<string>, key: string)
    requires ModeKnown(mode)
    requires key in LayerKeys
    ensures Placed(StepsOf(rows, manner, mode), key) == Markers(Filter(rows, InLayerP(key, manner, mode)), key)
  {
    if rows != [] {
      var front, last := rows[..|rows| - 1], rows[|rows| - 1];
      var p := InLayerP(key, manner, mode);
      var steps := StepsOf(rows, manner, mode);
      StepsOfSnoc(rows, manner, mode);
      assert steps[..|steps| - 1] == StepsOf(front, manner, mode);
      calc {
        Placed(steps, key);
        Placed(StepsOf(front, manner, mode), key) + Added(RenderStep(last, manner, mode), key);
        { RenderedLayer(front, manner, mode, key); OneRowAdded(last, manner, mode, key); }
        Markers(Filter(front, p), key) + Markers(Filter([last], p), key);
        { MarkersAppend(Filter(front, p), Filter([last], p), key); }
        Markers(Filter(front, p) + Filter([last], p), key);
        { FilterSplitLast(rows, p); }
        Markers(Filter(rows, p), key);
      }
    }
  }

  /** The groups after a render, when the mode filter names a known mode or
      is off: group `key` holds the markers of the matching rows of that
      tier, in order, and nothing else. */
  lemma RenderedGroups(rows: seq<Record>, manner: Option<string>, mode: Option<string>, key: string)
    requires ModeKnown(mode)
    requires key in LayerKeys
    ensures key in Rendered(rows, manner, mode)
    ensures Rendered(rows, manner, mode)[key] == Markers(Filter(rows, InLayerP(key, manner, mode)), key)
  {
    var steps := StepsOf(rows, manner, mode);
    KnownModeRendersAll(rows, manner, mode);
    assert steps[..FirstThrow(steps)] == steps;
    LayersPlaced(steps, key);
    RenderedLayer(rows, manner, mode, key);
  }

  /** A marker only ever stands for a row of its group's tier, whose
      coordinates parse, whatever the filters and even when the render
      throws part-way. */
  lemma {:induction false} OnlyParseableRowsDrawn(rows: seq<Record>, manner: Option<string>, mode: Option<string>, n: nat, key: string, m: Marker)
    requires n <= |rows|
    requires m in Placed(StepsOf(rows, manner, mode)[..n], key)
    ensures CoordsParse(m.row) && Field(m.row, "KABCO") == Some(key) && m.row in rows
  {
    var steps := StepsOf(rows, manner, mode);
    var j := PlacedBy(steps[..n], key, m);
    assert steps[j] == RenderStep(rows[j], manner, mode);
  }

  /** Every marker in a group was placed by some step under that key. */
  lemma {:induction false} PlacedBy(steps: seq<Step>, key: string, m: Marker) returns (j: nat)
    requires m in Placed(steps, key)
    ensures j < |steps| && steps[j] == Place(key, m)
  {
    var front := steps[..|steps| - 1];
    if m in Placed(front, key) {
      j := PlacedBy(front, key, m);
    } else {
      j := |steps| - 1;
    }
  }

  /** The crash layer groups, keyed by KABCO code. */
  class CrashLayers {
    var groups: map<string, seq<Marker>>

    ghost predicate Valid()
      reads this
    {
      groups.Keys == LayerKeys
    }

    /** One empty `L.layerGroup()` per entry of `layerProps`. */
    constructor ()
      ensures Valid()
      ensures forall k :: k in LayerKeys ==> groups[k] == []
    {
      groups := map k | k in LayerKeys :: [];
    }

    /** `renderCrashes(data, crashLayers, manner, mode)`. A throwing
        callback ends the render with the markers added so far. */
    method RenderCrashes(data: seq<Record>, manner: Option<string>, mode: Option<string>) returns (threw: bool)
      requires Valid()
      modifies this
      ensures Valid()
      ensures groups == Rendered(data, manner, mode)
      ensures threw <==> FirstThrow(StepsOf(data, manner, mode)) < |data|
    {
      CallbackKeysKnown(manner, mode);
      threw := ClearAndAdd(data, Callback(manner, mode));
    }

    /** The body of `renderCrashes`: clear every group, then run the
        callback on each row and add the marker it builds, if any, to the
        group of its KABCO code. */
    method ClearAndAdd(data: seq<Record>, callback: Record -> Step) returns (threw: bool)
      requires Valid()
      requires KeysKnown(callback)
      modifies this
      ensures Valid()
      ensures groups == RenderedBy(data, callback)
      ensures threw <==> FirstThrow(StepsBy(data, callback)) < |data|
    {
      ghost var steps := StepsBy(data, callback);
      LayersEmpty(groups);
      groups := map k | k in groups :: [];
      assert steps[..0] == [];
      threw := false;
      var i := 0;
      while i < |data|
        invariant i <= FirstThrow(steps)
        invariant forall j :: 0 <= j < i ==> !steps[j].Throw?
        invariant groups == Layers(steps[..i])
      {
        var step := callback(data[i]);
        if step.Throw? {
          assert i == FirstThrow(steps);
          threw := true;
          return;
        }
        LayersNext(steps, i);
        ghost var before := groups;
        if step.Place? {
          groups := groups[step.key := groups[step.key] + [step.marker]];
        }
        assert groups == Apply(before, step);
        i := i + 1;
      }
      assert i == FirstThrow(steps) && steps[..i] == steps;
    }
  }
}
