/** The static classification tables of the crash map. */
module Tables {

  import opened Wrappers

  /** One KABCO severity tier and the style of its markers. */
  datatype LayerProp = LayerProp(id: string, text: string, color: string, size: real, checked: bool)

  /** `layerProps`, most severe first. */
  const LayerProps: seq<LayerProp> := [
    LayerProp("K", "Fatal Crash (K)", "#290003", 12.0, true),
    LayerProp("A", "Serious Injury Crash (A)", "#75000A", 10.0, true),
    LayerProp("B", "Minor Injury Crash (B)", "#BA4149", 7.5, true),
    LayerProp("C", "Possible Injury Crash (C)", "#E68186", 6.0, true),
    LayerProp("O", "Property Damage Only (O)", "#FFD9DC", 4.0, true)
  ]

  /** The five KABCO codes, as listed by the normalization pass. */
  const SeverityCodes: seq<string> := ["K", "A", "B", "C", "O"]

  /** The keys of the crash layer groups: the identifiers of `layerProps`. */
  const LayerKeys: set<string> := {"K", "A", "B", "C", "O"}

  /** `mannerOfCollisionMapping`; JavaScript object keys are strings. */
  const MannerOfCollision: map<string, string> := map[
    "1" := "Angle",
    "2" := "Backing",
    "3" := "Head On",
    "4" := "Opposing Left Turn",
    "5" := "Rear End",
    "6" := "Rear to Rear",
    "7" := "Sideswipe-Opposite Direction",
    "8" := "Sideswipe-Same Direction",
    "9" := "Single Vehicle"
  ]

  /** `modeMapping`: each travel mode and the indicator fields that mark it. */
  const ModeMapping: map<string, seq<string>> := map[
    "Bicyclists" := ["Bicyclist"],
    "Pedestrians" := ["Pedestrian"],
    "Motorcyclists" := ["Motorcyclist"],
    "Intersection Crashes" := ["Intersection Crash"],
    "Motor Vehicles" := [
      "Young Driver", "Commercial Vehicle", "Mature Driver", "Distracted", "Aggressive",
      "Impaired", "Unrestrained", "Roadway Departure", "Median Cross-over"
    ]
  ]

  /** An inclusive range of HHMM clock times. */
  datatype TimeRange = TimeRange(lo: int, hi: int)

  datatype TimeGroup = TimeGroup(sliderLabel: string, range: TimeRange)

  /** `timeGroups`: the slider positions. */
  const TimeGroups: seq<TimeGroup> := [
    TimeGroup("All Crashes", TimeRange(0, 2359)),
    TimeGroup("12:00 AM - 2:59 AM", TimeRange(0, 259)),
    TimeGroup("3:00 AM - 5:59 AM", TimeRange(300, 559)),
    TimeGroup("6:00 AM - 8:59 AM", TimeRange(600, 859)),
    TimeGroup("9:00 AM - 11:59 AM", TimeRange(900, 1159)),
    TimeGroup("12:00 PM - 2:59 PM", TimeRange(1200, 1459)),
    TimeGroup("3:00 PM - 5:59 PM", TimeRange(1500, 1759)),
    TimeGroup("6:00 PM - 8:59 PM", TimeRange(1800, 2059)),
    TimeGroup("9:00 PM - 11:59 PM", TimeRange(2100, 2359))
  ]

  predicate InRange(t: int, range: TimeRange)
  {
    range.lo <= t <= range.hi
  }

  /** The `find` over `layerProps`: the first tier with that identifier. */
  function FindProp(props: seq<LayerProp>, id: string): (r: Option<LayerProp>)
    ensures r.None? <==> forall i :: 0 <= i < |props| ==> props[i].id != id
    ensures r.Some? ==> exists i :: 0 <= i < |props| && props[i] == r.value
                          && forall j :: 0 <= j < i ==> props[j].id != id
    ensures r.Some? ==> r.value.id == id
  {
    if props == [] then None
    else if props[0].id == id then Some(props[0])
    else
      var r := FindProp(props[1..], id);
      assert r.Some? ==> exists i :: 1 <= i < |props| && props[i] == r.value
                           && forall j :: 1 <= j < i ==> props[j].id != id;
      r
  }

  /** Looking a code up in `layerProps` succeeds exactly for the five KABCO
      codes, and yields that code's tier. */
  lemma FindSeverity(id: string)
    ensures FindProp(LayerProps, id).Some? <==> id in SeverityCodes
    ensures FindProp(LayerProps, id).Some? <==> id in LayerKeys
    ensures forall i :: 0 <= i < |LayerProps| && LayerProps[i].id == id ==> FindProp(LayerProps, id) == Some(LayerProps[i])
  {
    assert forall i :: 0 <= i < |LayerProps| ==> LayerProps[i].id == SeverityCodes[i];
    assert forall i, j :: 0 <= i < j < |SeverityCodes| ==> SeverityCodes[i] != SeverityCodes[j];
    assert id in LayerKeys <==> id in SeverityCodes;
  }

  /** Marker radii strictly decrease from fatal to property-damage-only. */
  lemma SizesFollowSeverity()
    ensures forall i, j :: 0 <= i < j < |LayerProps| ==> LayerProps[i].size > LayerProps[j].size
  {
  }

  /** Slider position 0 spans the whole day. */
  lemma AllCrashesSpansTheDay()
    ensures TimeGroups[0].range == TimeRange(0, 2359)
    ensures forall i :: 1 <= i < |TimeGroups| ==>
      TimeGroups[0].range.lo <= TimeGroups[i].range.lo <= TimeGroups[i].range.hi <= TimeGroups[0].range.hi
  {
  }

  /** Positions 1 to 8 are non-empty ranges in ascending order, so no two of
      them overlap. */
  lemma BucketsAscendingAndDisjoint()
    ensures |TimeGroups| == 9
    ensures forall i :: 1 <= i < 9 ==> TimeGroups[i].range.lo <= TimeGroups[i].range.hi
    ensures forall i, j :: 1 <= i < j < 9 ==> TimeGroups[i].range.hi < TimeGroups[j].range.lo
  {
    assert forall i :: 1 <= i < 9 ==> TimeGroups[i].range == TimeRange(300 * (i - 1), 300 * (i - 1) + 259);
  }

  /** Every clock time h:mm lies in exactly one of positions 1 to 8, the one
      for its three-hour block. */
  lemma {:induction false} ClockTimeInExactlyOneBucket(h: int, m: int, i: int)
    requires 0 <= h < 24 && 0 <= m < 60
    requires 1 <= i < 9
    ensures InRange(100 * h + m, TimeGroups[i].range) <==> i == h / 3 + 1
  {
    assert forall k :: 1 <= k < 9 ==> TimeGroups[k].range == TimeRange(300 * (k - 1), 300 * (k - 1) + 259);
    var q := h / 3;
    assert 0 <= h - 3 * q < 3;
    assert 300 * q <= 100 * h + m <= 300 * q + 259;
    if i - 1 < q {
      assert 300 * (i - 1) + 259 < 300 * q;
    } else if i - 1 > q {
      assert 300 * q + 259 < 300 * (i - 1);
    }
  }
}
