/** The legend: one item per entry of `layersLabels`, in insertion order.
    An item whose layer is not null toggles that layer on and off the map
    and shows by its opacity whether the layer is attached. */
module Legend {

  import opened Wrappers

  /** The map layers that can appear in the legend or on the map. */
  datatype LayerId =
    | Severity(code: string)
    | CityLimits
    | County
    | HighInjuryNetwork
    | HighwayPlan
    | SignalizedIntersections
    | UnsignalizedIntersections

  /** `Object.values(layersLabels)` in insertion order: the five severity
      groups, the High Injury Network, the highway plan, the two
      intersection layers, and the MEPDO graphic whose value is null. */
  const Entries: seq<Option<LayerId>> := [
    Some(Severity("K")), Some(Severity("A")), Some(Severity("B")), Some(Severity("C")), Some(Severity("O")),
    Some(HighInjuryNetwork), Some(HighwayPlan),
    Some(SignalizedIntersections), Some(UnsignalizedIntersections),
    None
  ]

  /** The layers attached with `.addTo(map)` before the legend is built; the
      two intersection layers are created but never added. */
  const InitiallyOnMap: set<LayerId> := {
    Severity("K"), Severity("A"), Severity("B"), Severity("C"), Severity("O"),
    CityLimits, County, HighInjuryNetwork, HighwayPlan
  }

  /** No layer has two legend items. */
  predicate Distinct(entries: seq<Option<LayerId>>)
  {
    forall i, j :: 0 <= i < j < |entries| && entries[i].Some? ==> entries[i] != entries[j]
  }

  lemma EntriesDistinct()
    ensures Distinct(Entries)
  {
  }

  /** `item.style.opacity` of a legend item: items with a layer show `"1"`
      when it is attached and `"0.4"` when it is not; the item of a null
      layer gets no `data-index` and keeps its default style `""`. */
  function OpacityFor(entry: Option<LayerId>, onMap: set<LayerId>): (r: string)
    ensures entry.Some? ==> (r == "1" <==> entry.value in onMap)
    ensures entry.Some? ==> (r == "0.4" <==> entry.value !in onMap)
    ensures entry.None? ==> r == ""
  {
    match entry
    case None => ""
    case Some(layer) => if layer in onMap then "1" else "0.4"
  }

  /** `map.removeLayer(layer)` when it is attached, `map.addLayer(layer)`
      otherwise. */
  function Toggle(onMap: set<LayerId>, layer: LayerId): (r: set<LayerId>)
    ensures layer in r <==> layer !in onMap
    ensures forall other :: other != layer ==> (other in r <==> other in onMap)
  {
    if layer in onMap then onMap - {layer} else onMap + {layer}
  }

  /** Two clicks on the same item leave the map as it was. */
  lemma ToggleTwice(onMap: set<LayerId>, layer: LayerId)
    ensures Toggle(Toggle(onMap, layer), layer) == onMap
  {
  }

  /** Toggles of different layers commute. */
  lemma ToggleCommutes(onMap: set<LayerId>, a: LayerId, b: LayerId)
    ensures Toggle(Toggle(onMap, a), b) == Toggle(Toggle(onMap, b), a)
  {
  }

  /** Once the legend is built, the crash, High Injury Network and highway
      plan items are opaque, the intersection items are faded, and the MEPDO
      item has no opacity of its own. */
  lemma InitialOpacities()
    ensures forall i :: 0 <= i < 7 ==> OpacityFor(Entries[i], InitiallyOnMap) == "1"
    ensures OpacityFor(Entries[7], InitiallyOnMap) == "0.4"
    ensures OpacityFor(Entries[8], InitiallyOnMap) == "0.4"
    ensures OpacityFor(Entries[9], InitiallyOnMap) == ""
  {
    assert SignalizedIntersections !in InitiallyOnMap;
    assert UnsignalizedIntersections !in InitiallyOnMap;
  }

  /** The legend items and the layers currently on the map. */
  class LegendControl {
    const entries: seq<Option<LayerId>>
    var onMap: set<LayerId>
    var opacity: seq<string>

    /** Every item's opacity agrees with its layer's attachment. */
    ghost predicate Valid()
      reads this
    {
      Distinct(entries)
      && |opacity| == |entries|
      && forall i :: 0 <= i < |entries| ==> opacity[i] == OpacityFor(entries[i], onMap)
    }

    /** The legend set-up: every item with a `data-index` gets the opacity
        of its layer's current attachment. */
    constructor (layers: seq<Option<LayerId>>, attached: set<LayerId>)
      requires Distinct(layers)
      ensures Valid()
      ensures entries == layers && onMap == attached
    {
      var styles: seq<string> := [];
      for i := 0 to |layers|
        invariant |styles| == i
        invariant forall j :: 0 <= j < i ==> styles[j] == OpacityFor(layers[j], attached)
      {
        if layers[i].Some? {
          if layers[i].value !in attached {
            styles := styles + ["0.4"];
          } else {
            styles := styles + ["1"];
          }
        } else {
          styles := styles + [""];
        }
      }
      entries := layers;
      onMap := attached;
      opacity := styles;
    }

    /** A click on item `i`. Items of a null layer have no listener. */
    method Click(i: nat)
      requires Valid()
      requires i < |entries|
      modifies this
      ensures Valid()
      ensures entries[i].None? ==> onMap == old(onMap) && opacity == old(opacity)
      ensures entries[i].Some? ==> onMap == Toggle(old(onMap), entries[i].value)
      ensures entries[i].Some? ==> opacity == old(opacity)[i := OpacityFor(entries[i], onMap)]
    {
      if entries[i].Some? {
        var layer := entries[i].value;
        if layer in onMap {
          onMap := onMap - {layer};
          opacity := opacity[i := "0.4"];
        } else {
          onMap := onMap + {layer};
          opacity := opacity[i := "1"];
        }
        forall j | 0 <= j < |entries| && j != i
          ensures opacity[j] == OpacityFor(entries[j], onMap)
        {
          if entries[j].Some? {
            assert entries[j].value != layer;
          }
        }
      }
    }
  }
}
