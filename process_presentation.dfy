/**
 * The orbit presentation: a fixed dataset of labelled items on three rings,
 * the set of rings the viewer has switched on, the items shown for it, the
 * width of each label, and the choice between the datasets ("maps").
 */
module Presentation {
  import opened Wrappers
  import opened Lists
  import opened Bounds

  /** One label on a ring: its text, its ring (1 to 3), its base angle in degrees and its colours. */
  datatype OrbitItem = OrbitItem(
    text: string, orbit: int, angle: int, color: string, backgroundColor: string, borderColor: string)

  const Blue: string := "#7CC9E8"
  const Green: string := "#4c956c"
  const Orange: string := "#d68c45"
  const White: string := "white"
  const OrangeTint: string := "rgba(214, 140, 69, 0.1)"

  /** The "miasto piękne" dataset: six items on ring 1, five on ring 2, six on ring 3. */
  const MiastoPiekneItems: seq<OrbitItem> := [
    OrbitItem("potrzeba piękna", 1, 0, Blue, White, Blue),
    OrbitItem("harmonia mundi", 1, 60, Blue, White, Blue),
    OrbitItem("chaos wizualny", 1, 120, Blue, White, Blue),
    OrbitItem("agresywna reklama", 1, 180, Blue, White, Blue),
    OrbitItem("chaos przestrzenny", 1, 240, Blue, White, Blue),
    OrbitItem("dziedzictwo", 1, 300, Blue, White, Blue),
    OrbitItem("uchwała reklamowa", 2, 0, Green, White, Green),
    OrbitItem("edukacja o pięknie", 2, 72, Green, White, Green),
    OrbitItem("nowa koncepcja szyldów", 2, 144, Green, White, Green),
    OrbitItem("reklama a architektura", 2, 216, Green, White, Green),
    OrbitItem("ochrona dziedzictwa", 2, 288, Green, White, Green),
    OrbitItem("rewitalizacja historyczna", 3, 0, Orange, OrangeTint, Orange),
    OrbitItem("nowe szyldy - warsztaty", 3, 60, Orange, OrangeTint, Orange),
    OrbitItem("uchwała reklamowa - poradnik", 3, 120, Orange, OrangeTint, Orange),
    OrbitItem("\"rozmowa o pięknie\" - seminarium", 3, 180, Orange, OrangeTint, Orange),
    OrbitItem("BB_Design Lab - wystawy", 3, 240, Orange, OrangeTint, Orange),
    OrbitItem("komunikacja wizualna", 3, 300, Orange, OrangeTint, Orange)
  ]

  /** The two datasets prepared for later, both empty. */
  const MiastoDostepneItems: seq<OrbitItem> := []
  const MiastoKreatywneItems: seq<OrbitItem> := []

  /** `orbitConfig[orbit].radius`, absent for a ring without an entry. */
  function OrbitRadius(orbit: int): (r: Option<nat>)
    ensures r.Some? <==> 1 <= orbit <= 3
    ensures r.Some? ==> r.value == 80 + 160 * orbit
  {
    if orbit == 1 then Some(240)
    else if orbit == 2 then Some(400)
    else if orbit == 3 then Some(560)
    else None
  }

  /** Every item lies on a configured ring at an angle in [0, 360). */
  predicate WellPlaced(items: seq<OrbitItem>) {
    forall i :: 0 <= i < |items| ==>
      1 <= items[i].orbit <= 3 && OrbitRadius(items[i].orbit).Some? && 0 <= items[i].angle < 360
  }

  lemma DatasetWellPlaced()
    ensures WellPlaced(MiastoPiekneItems)
  {
  }

  /** The label box: 100 px at least, 7 px per character plus 40, 280 px at most. */
  const BaseWidth: int := 100
  const CharWidth: int := 7
  const LabelPadding: int := 40
  const MaxWidth: int := 280

  /** `calculateLabelWidth`. */
  function LabelWidth(text: string): (w: int)
    ensures BaseWidth <= w <= MaxWidth
    ensures |text| <= 8 ==> w == BaseWidth
    ensures |text| >= 35 ==> w == MaxWidth
    ensures 9 <= |text| <= 34 ==> w == CharWidth * |text| + LabelPadding
  {
    Min(Max(BaseWidth, |text| * CharWidth + LabelPadding), MaxWidth)
  }

  /** Longer text never gets a narrower label. */
  lemma LabelWidthMonotone(a: string, b: string)
    requires |a| <= |b|
    ensures LabelWidth(a) <= LabelWidth(b)
  {
  }

  /** Ring selections: non-empty, ascending, no repeats, rings 1 to 3 only. */
  predicate ValidRings(active: seq<int>) {
    && |active| > 0
    && StrictlyIncreasing(active)
    && forall i :: 0 <= i < |active| ==> 1 <= active[i] <= 3
  }

  /**
   * `toggleStage` on the active rings: an active ring is dropped unless it
   * is the only one, an inactive ring is appended and the list sorted.
   * Sorting compares numbers here; the source's default `sort()` compares
   * their decimal strings, which orders the one-digit rings 1 to 3 the same.
   */
  function ToggleRing(active: seq<int>, stage: int): (r: seq<int>)
    requires 1 <= stage <= 3
    ensures stage in active && |active| == 1 ==> r == active
    ensures stage in active && |active| > 1 ==> forall x :: x in r <==> x in active && x != stage
    ensures stage !in active ==> forall x :: x in r <==> x in active || x == stage
  {
    if stage in active then
      if |active| > 1 then Without(active, stage) else active
    else Sort(active + [stage])
  }

  /**
   * Toggling keeps a valid selection valid: never empty, ascending, and
   * within rings 1 to 3.
   */
  lemma ToggleRingKeepsValid(active: seq<int>, stage: int)
    requires ValidRings(active) && 1 <= stage <= 3
    ensures ValidRings(ToggleRing(active, stage))
  {
    var r := ToggleRing(active, stage);
    if stage in active && |active| > 1 {
      WithoutKeepsIncreasing(active, stage);
      assert r != [] by {
        var k :| 0 <= k < |active| && active[k] != stage;
        assert active[k] in r;
      }
      assert forall k :: 0 <= k < |r| ==> r[k] in active by {
        forall k | 0 <= k < |r| ensures r[k] in active { assert r[k] in r; }
      }
    } else if stage !in active {
      AppendSortIncreasing(active, stage);
      assert stage in r;
      assert forall k :: 0 <= k < |r| ==> r[k] in active || r[k] == stage by {
        forall k | 0 <= k < |r| ensures r[k] in active || r[k] == stage { assert r[k] in r; }
      }
    }
  }

  /** However the rings are toggled from `[1]`, the selection is never empty. */
  lemma {:induction false} TogglesKeepSelection(active: seq<int>, toggles: seq<int>)
    requires ValidRings(active)
    requires forall i :: 0 <= i < |toggles| ==> 1 <= toggles[i] <= 3
    ensures ValidRings(ToggleAll(active, toggles))
    decreases |toggles|
  {
    if toggles != [] {
      ToggleRingKeepsValid(active, toggles[0]);
      TogglesKeepSelection(ToggleRing(active, toggles[0]), toggles[1..]);
    }
  }

  /** The selection after a series of ring toggles. */
  function ToggleAll(active: seq<int>, toggles: seq<int>): seq<int>
    requires forall i :: 0 <= i < |toggles| ==> 1 <= toggles[i] <= 3
    decreases |toggles|
  {
    if toggles == [] then active else ToggleAll(ToggleRing(active, toggles[0]), toggles[1..])
  }

  /** What the filter keeps of one item: the item itself when its ring is active. */
  function Kept(item: OrbitItem, active: seq<int>): seq<OrbitItem> {
    if item.orbit in active then [item] else []
  }

  /** `items.filter(item => activeStages.includes(item.orbit))`. */
  function OnActiveRings(items: seq<OrbitItem>, active: seq<int>): (r: seq<OrbitItem>)
    ensures |r| <= |items|
  {
    if items == [] then [] else Kept(items[0], active) + OnActiveRings(items[1..], active)
  }

  /** An item is shown exactly when it is in the dataset and its ring is active. */
  lemma {:induction false} OnActiveRingsMembers(items: seq<OrbitItem>, active: seq<int>)
    ensures forall it :: it in OnActiveRings(items, active) <==> it in items && it.orbit in active
  {
    if items != [] {
      OnActiveRingsMembers(items[1..], active);
      assert items == [items[0]] + items[1..];
    }
  }

  /** Filtering keeps the original order: it distributes over concatenation. */
  lemma {:induction false} OnActiveRingsConcat(a: seq<OrbitItem>, b: seq<OrbitItem>, active: seq<int>)
    ensures OnActiveRings(a + b, active) == OnActiveRings(a, active) + OnActiveRings(b, active)
  {
    if a == [] {
      assert a + b == b;
    } else {
      var head := Kept(a[0], active);
      assert (a + b)[1..] == a[1..] + b;
      calc {
        OnActiveRings(a + b, active);
        head + OnActiveRings(a[1..] + b, active);
        { OnActiveRingsConcat(a[1..], b, active); }
        head + (OnActiveRings(a[1..], active) + OnActiveRings(b, active));
        (head + OnActiveRings(a[1..], active)) + OnActiveRings(b, active);
      }
    }
  }

  /** With every ring of the items active, nothing is filtered out. */
  lemma {:induction false} AllRingsShowAll(items: seq<OrbitItem>, active: seq<int>)
    requires forall i :: 0 <= i < |items| ==> items[i].orbit in active
    ensures OnActiveRings(items, active) == items
  {
    if items != [] {
      AllRingsShowAll(items[1..], active);
      assert items == [items[0]] + items[1..];
    }
  }

  /** All three rings active show the whole "miasto piękne" dataset. */
  lemma AllRingsShowDataset()
    ensures OnActiveRings(MiastoPiekneItems, [1, 2, 3]) == MiastoPiekneItems
  {
    DatasetWellPlaced();
    AllRingsShowAll(MiastoPiekneItems, [1, 2, 3]);
  }

  /** The items `handleMapToggle` loads for a map name; an unknown name loads "miasto piękne". */
  function DatasetFor(mapName: string): (r: seq<OrbitItem>)
    ensures r == [] <==> mapName == "miastodostepne" || mapName == "miastokreatywne"
    ensures r != [] ==> r == MiastoPiekneItems
  {
    if mapName == "miastopiekne" then MiastoPiekneItems
    else if mapName == "miastodostepne" then MiastoDostepneItems
    else if mapName == "miastokreatywne" then MiastoKreatywneItems
    else MiastoPiekneItems
  }

  /** The component state. */
  class ProcessPresentation {
    var activeMap: string
    var items: seq<OrbitItem>
    var activeStages: seq<int>
    var maxIterations: nat

    /** The rings form a valid selection and, on "miasto piękne", the items are its filter. */
    ghost predicate Valid()
      reads this
    {
      && ValidRings(activeStages)
      && (activeMap == "miastopiekne" ==> items == OnActiveRings(MiastoPiekneItems, activeStages))
    }

    /** The first state, after the filtering effect has run once on mount. */
    constructor ()
      ensures Valid()
      ensures activeMap == "miastopiekne" && activeStages == [1] && maxIterations == 3
      ensures items == OnActiveRings(MiastoPiekneItems, [1])
    {
      activeMap := "miastopiekne";
      items := MiastoPiekneItems;
      activeStages := [1];
      maxIterations := 3;
      new;
      RefreshItems();
    }

    /** The effect that re-filters the items whenever the rings or the map change. */
    method RefreshItems()
      modifies this`items
      ensures items == if activeMap == "miastopiekne" then OnActiveRings(MiastoPiekneItems, activeStages) else old(items)
    {
      if activeMap == "miastopiekne" {
        items := OnActiveRings(MiastoPiekneItems, activeStages);
      }
    }

    /** A click on a ring button, followed by the filtering effect when the rings changed. */
    method ToggleStage(stage: int)
      requires Valid()
      requires 1 <= stage <= 3
      modifies this`activeStages, this`items
      ensures Valid()
      ensures activeStages == ToggleRing(old(activeStages), stage)
      ensures items == if activeMap == "miastopiekne" then OnActiveRings(MiastoPiekneItems, activeStages) else old(items)
    {
      ToggleRingKeepsValid(activeStages, stage);
      if stage in activeStages {
        if |activeStages| > 1 {
          activeStages := Without(activeStages, stage);
          RefreshItems();
        }
      } else {
        activeStages := Sort(activeStages + [stage]);
        RefreshItems();
      }
    }

    /**
     * A click on a map button: the map is selected, the rings reset to
     * `[1]`, the map's items loaded, and then the filtering effect runs.
     */
    method HandleMapToggle(mapName: string)
      modifies this
      ensures Valid()
      ensures activeMap == mapName && activeStages == [1] && maxIterations == 3
      ensures items == if mapName == "miastopiekne" then OnActiveRings(MiastoPiekneItems, [1]) else DatasetFor(mapName)
    {
      activeMap := mapName;
      activeStages := [1];
      if mapName == "miastopiekne" {
        items := MiastoPiekneItems;
        maxIterations := 3;
      } else if mapName == "miastodostepne" {
        items := MiastoDostepneItems;
        maxIterations := 3;
      } else if mapName == "miastokreatywne" {
        items := MiastoKreatywneItems;
        maxIterations := 3;
      } else {
        items := MiastoPiekneItems;
        maxIterations := 3;
      }
      RefreshItems();
    }
  }
}
