/**
 * The chart layer of js/charts.js: dataset styling, the parts of a chart's
 * configuration the dashboard decides (legend, index axis), and the `_charts`
 * registry that destroys a canvas's previous chart before it stores a new one.
 * Chart.js itself is not modelled: a chart is a handle plus its configuration,
 * and `destroy()` is recorded by appending the handle to `destroyed`.
 */
module Charts {
  import opened Prelude

  /** `PALETTE`, the values of `CHART_COLORS` in declaration order. */
  const Palette: seq<string> := ["#6366f1", "#06b6d4", "#22c55e", "#f59e0b", "#ef4444", "#a855f7", "#ec4899"]

  /** A dataset as the loaders pass it: `{ label, data }` (`name` is the `label`). */
  datatype Dataset = Dataset(name: string, data: seq<int>)

  /** A dataset after styling; `color` is the one palette colour its styling is derived from. */
  datatype StyledDataset = StyledDataset(name: string, data: seq<int>, color: string)

  function Style(ds: Dataset, i: nat): StyledDataset {
    StyledDataset(ds.name, ds.data, Palette[i % |Palette|])
  }

  /** `datasets.map((ds, i) => ...)` of js/charts.js:41-55 and 127-138. */
  function StyleDatasets(datasets: seq<Dataset>): (r: seq<StyledDataset>)
    ensures |r| == |datasets|
    ensures forall i :: 0 <= i < |r| ==>
      r[i].name == datasets[i].name && r[i].data == datasets[i].data && r[i].color == Palette[i % 7]
  {
    MapIndexed(datasets, Style)
  }

  /** The dataset a styled one was made from. */
  function Unstyle(styled: seq<StyledDataset>): (r: seq<Dataset>)
    ensures |r| == |styled|
    ensures forall i :: 0 <= i < |r| ==> r[i] == Dataset(styled[i].name, styled[i].data)
  {
    seq(|styled|, i requires 0 <= i < |styled| => Dataset(styled[i].name, styled[i].data))
  }

  /** Styling keeps the count, order, labels and data: dropping the colours gives the input back. */
  lemma UnstyleStyle(datasets: seq<Dataset>)
    ensures Unstyle(StyleDatasets(datasets)) == datasets
  {
    var r := Unstyle(StyleDatasets(datasets));
    assert |r| == |datasets|;
    forall i | 0 <= i < |r| ensures r[i] == datasets[i] {
    }
  }

  /** Colours repeat with the period of the palette, and neighbours within it differ. */
  lemma PaletteCycles(datasets: seq<Dataset>, i: nat)
    requires i + 1 < |datasets|
    ensures i + 7 < |datasets| ==> StyleDatasets(datasets)[i + 7].color == StyleDatasets(datasets)[i].color
    ensures StyleDatasets(datasets)[i + 1].color != StyleDatasets(datasets)[i].color
  {
    var r := StyleDatasets(datasets);
    assert (i + 7) % 7 == i % 7;
    assert (i + 1) % 7 != i % 7;
    assert forall a, b :: 0 <= a < b < 7 ==> Palette[a] != Palette[b];
  }

  datatype Axis = X | Y

  /** What the dashboard decides about a chart; the rest of its options are constants. */
  datatype ChartConfig =
    | LineConfig(labels: seq<string>, datasets: seq<StyledDataset>, legend: bool)
    | DoughnutConfig(labels: seq<string>, data: seq<int>)
    | BarConfig(labels: seq<string>, datasets: seq<StyledDataset>, legend: bool, indexAxis: Axis)

  /** The configuration of js/charts.js:57-82. */
  function LineConfigOf(labels: seq<string>, datasets: seq<Dataset>): (c: ChartConfig)
    ensures c.LineConfig? && c.labels == labels
    ensures Unstyle(c.datasets) == datasets
    ensures c.legend <==> |datasets| > 1
  {
    UnstyleStyle(datasets);
    LineConfig(labels, StyleDatasets(datasets), |datasets| > 1)
  }

  /** The configuration of js/charts.js:91-118. */
  function DoughnutConfigOf(labels: seq<string>, data: seq<int>): (c: ChartConfig)
    ensures c.DoughnutConfig? && c.labels == labels && c.data == data
  {
    DoughnutConfig(labels, data)
  }

  /** The configuration of js/charts.js:140-162; `horizontal` defaults to false. */
  function BarConfigOf(labels: seq<string>, datasets: seq<Dataset>, horizontal: bool := false): (c: ChartConfig)
    ensures c.BarConfig? && c.labels == labels
    ensures Unstyle(c.datasets) == datasets
    ensures c.legend <==> |datasets| > 1
    ensures c.indexAxis == Y <==> horizontal
  {
    UnstyleStyle(datasets);
    BarConfig(labels, StyleDatasets(datasets), |datasets| > 1, if horizontal then Y else X)
  }

  /** A bar chart built without saying `horizontal` is vertical. */
  lemma BarDefaultVertical(labels: seq<string>, datasets: seq<Dataset>)
    ensures BarConfigOf(labels, datasets).indexAxis == X
  {
  }

  /** A live chart: the handle `new Chart(...)` returned, and its configuration. */
  datatype Chart = Chart(handle: nat, config: ChartConfig)

  /** The registry after `delete _charts[id]`. */
  function Evicted(charts: map<string, Chart>, id: string): (r: map<string, Chart>)
    ensures id !in r
    ensures forall k :: k != id ==> (k in r <==> k in charts)
    ensures forall k :: k in r ==> r[k] == charts[k]
  {
    charts - {id}
  }

  /** The handles `destroyChart(id)` destroys: the chart stored for `id`, if any. */
  function Prior(charts: map<string, Chart>, id: string): (r: seq<nat>)
    ensures |r| <= 1
    ensures r == [] <==> id !in charts
    ensures id in charts ==> r == [charts[id].handle]
  {
    if id in charts then [charts[id].handle] else []
  }

  /** The handles of the charts the registry holds. */
  function Handles(charts: map<string, Chart>): set<nat> {
    set id | id in charts :: charts[id].handle
  }

  /** `_charts` (js/charts.js:29) together with the record of destroyed charts. */
  class Registry {
    var charts: map<string, Chart>
    /** Handles of the charts whose `destroy()` was called, in call order. */
    var destroyed: seq<nat>
    /** The handle the next `new Chart(...)` returns. */
    var next: nat

    /**
     * Every stored chart is a distinct, undestroyed instance, and no chart
     * was destroyed twice.
     */
    ghost predicate Valid()
      reads this
    {
      && (forall id :: id in charts ==> charts[id].handle < next)
      && (forall a, b :: a in charts && b in charts && charts[a].handle == charts[b].handle ==> a == b)
      && (forall i :: 0 <= i < |destroyed| ==> destroyed[i] < next && destroyed[i] !in Handles(charts))
      && (forall i, j :: 0 <= i < j < |destroyed| ==> destroyed[i] != destroyed[j])
    }

    constructor()
      ensures Valid()
      ensures charts == map[] && destroyed == [] && next == 0
    {
      charts := map[];
      destroyed := [];
      next := 0;
    }

    /** `destroyChart(id)` (js/charts.js:30-32). */
    method DestroyChart(id: string)
      requires Valid()
      modifies this
      ensures Valid()
      ensures charts == Evicted(old(charts), id)
      ensures destroyed == old(destroyed) + Prior(old(charts), id)
      ensures next == old(next)
    {
      if id in charts {
        var h := charts[id].handle;
        assert h !in Handles(charts - {id});
        destroyed := destroyed + [h];
        charts := charts - {id};
      }
    }

    /** `_charts[id] = new Chart(...)` after `destroyChart(id)`: a fresh handle is stored. */
    method Store(id: string, config: ChartConfig)
      requires Valid() && id !in charts
      modifies this
      ensures Valid()
      ensures charts == old(charts)[id := Chart(old(next), config)]
      ensures destroyed == old(destroyed) && next == old(next) + 1
      ensures old(next) !in Handles(old(charts))
      ensures forall i :: 0 <= i < |destroyed| ==> destroyed[i] != old(next)
    {
      assert next !in Handles(charts);
      charts := charts[id := Chart(next, config)];
      next := next + 1;
    }

    /** The common shape of the three `init*Chart` functions. */
    method Init(canvasId: string, canvasPresent: bool, config: ChartConfig)
      requires Valid()
      modifies this
      ensures Valid()
      ensures destroyed == old(destroyed) + Prior(old(charts), canvasId)
      ensures canvasPresent ==> charts == old(charts)[canvasId := Chart(old(next), config)] && next == old(next) + 1
      ensures canvasPresent ==> forall i :: 0 <= i < |destroyed| ==> destroyed[i] != old(next)
      ensures canvasPresent ==> old(next) !in Handles(old(charts))
      ensures !canvasPresent ==> charts == Evicted(old(charts), canvasId) && next == old(next)
    {
      DestroyChart(canvasId);
      if canvasPresent {
        Store(canvasId, config);
      }
    }

    /** `initLineChart(canvasId, labels, datasets)` (js/charts.js:35-83). */
    method InitLineChart(canvasId: string, labels: seq<string>, datasets: seq<Dataset>, canvasPresent: bool)
      requires Valid()
      modifies this
      ensures Valid()
      ensures destroyed == old(destroyed) + Prior(old(charts), canvasId)
      ensures canvasPresent ==> charts == old(charts)[canvasId := Chart(old(next), LineConfigOf(labels, datasets))]
      ensures canvasPresent ==> forall i :: 0 <= i < |destroyed| ==> destroyed[i] != charts[canvasId].handle
      ensures canvasPresent ==> old(next) !in Handles(old(charts))
      ensures !canvasPresent ==> charts == Evicted(old(charts), canvasId)
    {
      Init(canvasId, canvasPresent, LineConfigOf(labels, datasets));
    }

    /** `initDoughnutChart(canvasId, labels, data)` (js/charts.js:86-119). */
    method InitDoughnutChart(canvasId: string, labels: seq<string>, data: seq<int>, canvasPresent: bool)
      requires Valid()
      modifies this
      ensures Valid()
      ensures destroyed == old(destroyed) + Prior(old(charts), canvasId)
      ensures canvasPresent ==> charts == old(charts)[canvasId := Chart(old(next), DoughnutConfigOf(labels, data))]
      ensures canvasPresent ==> forall i :: 0 <= i < |destroyed| ==> destroyed[i] != charts[canvasId].handle
      ensures canvasPresent ==> old(next) !in Handles(old(charts))
      ensures !canvasPresent ==> charts == Evicted(old(charts), canvasId)
    {
      Init(canvasId, canvasPresent, DoughnutConfigOf(labels, data));
    }

    /** `initBarChart(canvasId, labels, datasets, horizontal = false)` (js/charts.js:122-163). */
    method InitBarChart(canvasId: string, labels: seq<string>, datasets: seq<Dataset>, canvasPresent: bool, horizontal: bool := false)
      requires Valid()
      modifies this
      ensures Valid()
      ensures destroyed == old(destroyed) + Prior(old(charts), canvasId)
      ensures canvasPresent ==> charts == old(charts)[canvasId := Chart(old(next), BarConfigOf(labels, datasets, horizontal))]
      ensures canvasPresent ==> forall i :: 0 <= i < |destroyed| ==> destroyed[i] != charts[canvasId].handle
      ensures canvasPresent ==> old(next) !in Handles(old(charts))
      ensures !canvasPresent ==> charts == Evicted(old(charts), canvasId)
    {
      Init(canvasId, canvasPresent, BarConfigOf(labels, datasets, horizontal));
    }
  }
}
