/**
 The page script: the `config` record, the `createRectangle` action, the drag handler
 attached to every group, and the two toggle buttons.
 */
module App {
  import opened Geometry
  import opened Scene

  /** The result of JavaScript's `Number(...)` on a text field: not-a-number, or a finite number. */
  datatype Number = NaN | Num(value: real)

  /** JavaScript's `isNaN`. */
  predicate IsNaN(n: Number) {
    n.NaN?
  }

  /** JavaScript's `a <= b` on numbers: false as soon as either side is NaN. */
  predicate LessOrEqual(a: Number, b: Number) {
    a.Num? && b.Num? && a.value <= b.value
  }

  /** The guard of `createRectangle`: the dimensions it refuses. */
  predicate Rejects(width: Number, height: Number): (r: bool)
    ensures !r <==> (width.Num? && height.Num? && width.value > 0.0 && height.value > 0.0)
  {
    IsNaN(width) || IsNaN(height) || LessOrEqual(width, Num(0.0)) || LessOrEqual(height, Num(0.0))
  }

  /**
   Without its two `isNaN` tests the guard would let a NaN width through: both of its
   comparisons are false for NaN and a positive height, while `Rejects` refuses that input.
   */
  lemma NaNPassesComparisons(height: Number)
    requires height.Num? && height.value > 0.0
    ensures !(LessOrEqual(NaN, Num(0.0)) || LessOrEqual(height, Num(0.0)))
    ensures Rejects(NaN, height)
  {
  }

  /** The page's `config` record; its two flags are flipped by the toggle buttons. */
  class Config {
    var snapEnabled: bool
    var measureEnabled: bool

    /** The values the page starts with: snapping off, measurements shown. */
    constructor ()
      ensures !snapEnabled && measureEnabled
    {
      snapEnabled := false;
      measureEnabled := true;
    }
  }

  /**
   `createRectangle(width, height)` with the view centre `center`. Refused dimensions (the
   alert) change nothing; otherwise one group is appended to the layer, centred on `center`.
   */
  method CreateRectangle(layer: Layer, center: Point, width: Number, height: Number) returns (accepted: bool)
    modifies layer
    ensures accepted <==> (width.Num? && height.Num? && width.value > 0.0 && height.value > 0.0)
    ensures !accepted ==> layer.children == old(layer.children)
    ensures accepted ==> layer.children == old(layer.children) + [Group(NewGroup(center, width.value, height.value))]
    ensures old(layer.Valid()) ==> layer.Valid()
  {
    if Rejects(width, height) {
      return false;
    }
    var w, h := width.value, height.value;
    var group := NewGroup(center, w, h);
    layer.children := layer.children + [Group(group)];
    if old(layer.Valid()) {
      AppendKeepsAllMeasured(old(layer.children), center, w, h);
    }
    return true;
  }

  /** The group's `onMouseDrag`: `this.position = this.position.add(event.delta)` on the `i`-th child of the layer. */
  method DragGroup(layer: Layer, i: nat, delta: Point)
    requires i < |layer.children| && layer.children[i].Group?
    modifies layer
    ensures layer.children == old(layer.children)[i := Group(TranslateAll(old(layer.children[i].items), delta))]
    ensures old(layer.Valid()) ==> layer.Valid()
  {
    var moved := TranslateAll(layer.children[i].items, delta);
    if layer.Valid() {
      DragKeepsAllMeasured(layer.children, i, delta);
    }
    layer.children := layer.children[i := Group(moved)];
  }

  /** The snap button: flips `snapEnabled` and nothing else. */
  method ToggleSnap(config: Config)
    modifies config
    ensures config.snapEnabled == !old(config.snapEnabled)
    ensures config.measureEnabled == old(config.measureEnabled)
  {
    config.snapEnabled := !config.snapEnabled;
  }

  /** The inner loop of the measurement button: every `PointText` member of a group gets `visible := flag`. */
  method SetLabelVisibility(items: seq<Item>, flag: bool) returns (r: seq<Item>)
    ensures |r| == |items|
    ensures forall k :: 0 <= k < |r| && items[k].PointText? ==>
      r[k] == PointText(items[k].point, items[k].content, flag)
    ensures forall k :: 0 <= k < |r| && !items[k].PointText? ==> r[k] == items[k]
    ensures r == LabelsSetTo(items, flag)
  {
    r := [];
    var k := 0;
    while k < |items|
      invariant 0 <= k <= |items| && |r| == k
      invariant forall j :: 0 <= j < k ==> r[j] == items[j].WithLabelVisibility(flag)
    {
      var item := items[k];
      if item.PointText? {
        item := item.(visible := flag);
      }
      r := r + [item];
      k := k + 1;
    }
  }

  /**
   The measurement button: flips `measureEnabled`, then walks the layer's children and, in
   every group, sets the visibility of every label to the new flag.
   */
  method ToggleMeasure(config: Config, layer: Layer)
    modifies config, layer
    ensures config.measureEnabled == !old(config.measureEnabled)
    ensures config.snapEnabled == old(config.snapEnabled)
    ensures layer.children == SweepLayer(old(layer.children), config.measureEnabled)
    ensures LabelsMatch(layer.children, config.measureEnabled)
    ensures old(layer.Valid()) ==> layer.Valid()
  {
    config.measureEnabled := !config.measureEnabled;
    var i := 0;
    while i < |layer.children|
      invariant 0 <= i <= |layer.children| == |old(layer.children)|
      invariant config.measureEnabled == !old(config.measureEnabled)
      invariant config.snapEnabled == old(config.snapEnabled)
      invariant forall j :: 0 <= j < i ==> layer.children[j] == SweepChild(old(layer.children[j]), config.measureEnabled)
      invariant forall j :: i <= j < |layer.children| ==> layer.children[j] == old(layer.children[j])
    {
      match layer.children[i] {
        case Group(items) =>
          var swept := SetLabelVisibility(items, config.measureEnabled);
          layer.children := layer.children[i := Group(swept)];
        case Plain(_) =>
      }
      i := i + 1;
    }
    SweepSetsLabels(old(layer.children), config.measureEnabled);
    if old(layer.Valid()) {
      SweepKeepsAllMeasured(old(layer.children), config.measureEnabled);
    }
  }

  /** Pressing the snap button twice restores the configuration. */
  method ToggleSnapTwice(config: Config)
    modifies config
    ensures config.snapEnabled == old(config.snapEnabled)
    ensures config.measureEnabled == old(config.measureEnabled)
  {
    ToggleSnap(config);
    ToggleSnap(config);
  }

  /**
   Pressing the measurement button twice restores the flag and leaves every label of a group
   with the old flag; the scene itself comes back only when the labels matched the flag
   beforehand (a rectangle added while measurements were hidden has visible labels).
   */
  method ToggleMeasureTwice(config: Config, layer: Layer)
    modifies config, layer
    ensures config.measureEnabled == old(config.measureEnabled)
    ensures config.snapEnabled == old(config.snapEnabled)
    ensures layer.children == SweepLayer(old(layer.children), old(config.measureEnabled))
    ensures LabelsMatch(layer.children, old(config.measureEnabled))
    ensures LabelsMatch(old(layer.children), old(config.measureEnabled)) ==> layer.children == old(layer.children)
  {
    ToggleMeasure(config, layer);
    ToggleMeasure(config, layer);
    SweepLastWins(old(layer.children), !config.measureEnabled, config.measureEnabled);
    if LabelsMatch(old(layer.children), old(config.measureEnabled)) {
      SweepInSyncIsIdentity(old(layer.children), config.measureEnabled);
    }
  }
}
