/**
 * What the section loaders of js/analytics.js do to the page, as functions on
 * a model of the document: a map from element id to the element's `display`
 * style, what it holds, and the content region (if any) it lies in. Setting
 * `textContent` or `innerHTML` of an element replaces everything inside it,
 * so the elements lying in a content region vanish when the region's markup is
 * replaced. The exact markup of rows and panels is not modelled: a row is the
 * list of its cell texts.
 */
module Render {
  import opened Prelude
  import opened Text
  import opened Escape
  import opened Formatters
  import opened Charts

  /** A table row: the text of its cells and, for the pages table, its `title` attribute. */
  datatype Row = Row(cells: seq<string>, title: Option<string>)

  /** What an element holds. */
  datatype Content =
    | Markup                              // what the page was loaded with
    | TextContent(text: string)                  // set through `textContent`
    | ErrorPanel(message: string)         // the empty-state panel; `message` is its paragraph, escaped
    | Rows(rows: seq<Row>)                // table rows built by `map(...).join('')`
    | Placeholder(text: string, colspan: nat)  // the single fallback row

  /** An element: its `style.display`, what it holds, and the content region it lies in. */
  datatype Element = Element(display: string, content: Content, region: Option<string>)

  type Dom = map<string, Element>

  function LoadingId(section: string): string {
    section + "-loading"
  }

  function ContentId(section: string): string {
    section + "-content"
  }

  /** The four sections that have a loading indicator and a content region. */
  predicate IsLoaded(section: string) {
    section == "overview" || section == "audience" || section == "acquisition" || section == "behavior"
  }

  /** The content regions whose markup a failure replaces. */
  predicate IsRegion(id: string) {
    id == "overview-content" || id == "audience-content" || id == "acquisition-content" || id == "behavior-content"
  }

  lemma ContentIdIsRegion(section: string)
    requires IsLoaded(section)
    ensures IsRegion(ContentId(section))
  {
  }

  lemma LoadingIdNotContentId(section: string)
    ensures LoadingId(section) != ContentId(section)
  {
    assert LoadingId(section)[|section| + 1] == 'l' != ContentId(section)[|section| + 1];
  }

  /**
   * The layout the loaders expect: an element lies in a region only if that
   * region is one of the four content regions, and no region lies in another.
   */
  predicate Layout(dom: Dom) {
    forall k :: k in dom && dom[k].region.Some? ==> IsRegion(dom[k].region.value) && !IsRegion(k)
  }

  /** Replacing what element `id` holds; the elements lying in it go with its old children. */
  function Replace(dom: Dom, id: string, c: Content): (r: Dom)
    requires id in dom
    ensures id in r && r[id] == dom[id].(content := c)
    ensures forall k :: k in r <==> k in dom && (k == id || dom[k].region != Some(id))
    ensures forall k :: k in r && k != id ==> r[k] == dom[k]
  {
    (map k | k in dom && dom[k].region != Some(id) :: dom[k])[id := dom[id].(content := c)]
  }

  /** Outside the regions nothing lies in an element, so a replacement changes that element only. */
  lemma ReplacePlain(dom: Dom, id: string, c: Content)
    requires Layout(dom) && id in dom && !IsRegion(id)
    ensures Replace(dom, id, c) == dom[id := dom[id].(content := c)]
  {
  }

  /** One `textContent`/`innerHTML` assignment, guarded by `if (el)`. */
  datatype Write = Write(id: string, content: Content)

  function WriteIn(dom: Dom, w: Write): Dom {
    if w.id in dom then Replace(dom, w.id, w.content) else dom
  }

  /** The writes, in order. */
  function ApplyWrites(dom: Dom, ws: seq<Write>): Dom
    decreases |ws|
  {
    if ws == [] then dom else ApplyWrites(WriteIn(dom, ws[0]), ws[1..])
  }

  /** `setText(id, value)` (js/analytics.js:180-183). */
  function SetTextIn(dom: Dom, id: string, value: string): (r: Dom)
    ensures id in dom ==> id in r && r[id].content == TextContent(value) && r[id].display == dom[id].display
    ensures id in dom ==> r == Replace(dom, id, TextContent(value))
    ensures forall k :: k in r ==> k in dom
    ensures forall k :: k in dom && k != id && dom[k].region != Some(id) ==> k in r && r[k] == dom[k]
    ensures id !in dom ==> r == dom
  {
    WriteIn(dom, Write(id, TextContent(value)))
  }

  function SetDisplay(dom: Dom, id: string, display: string): (r: Dom)
    ensures r.Keys == dom.Keys
    ensures id in dom ==> r[id] == dom[id].(display := display)
    ensures forall k :: k in r && k != id ==> r[k] == dom[k]
  {
    if id in dom then dom[id := dom[id].(display := display)] else dom
  }

  /** `setLoading(section, loading)` (js/analytics.js:193-198). */
  function SetLoadingIn(dom: Dom, section: string, loading: bool): (r: Dom)
    ensures r.Keys == dom.Keys
    ensures LoadingId(section) in dom ==> r[LoadingId(section)].display == (if loading then "flex" else "none")
    ensures ContentId(section) in dom ==> r[ContentId(section)].display == (if loading then "none" else "block")
    ensures forall k :: k in r ==> r[k].content == dom[k].content && r[k].region == dom[k].region
    ensures forall k :: k in r && k != LoadingId(section) && k != ContentId(section) ==> r[k] == dom[k]
  {
    LoadingIdNotContentId(section);
    var d := SetDisplay(dom, LoadingId(section), if loading then "flex" else "none");
    SetDisplay(d, ContentId(section), if loading then "none" else "block")
  }

  /** `showSectionError(section, message)` (js/analytics.js:200-212). */
  function ShowSectionErrorIn(dom: Dom, section: string, message: string): (r: Dom)
    ensures ContentId(section) in dom ==>
      && ContentId(section) in r
      && r[ContentId(section)] == dom[ContentId(section)].(display := "block", content := ErrorPanel(EscapeHtml(message)))
      && (forall k :: k in r <==> k in dom && (k == ContentId(section) || dom[k].region != Some(ContentId(section))))
      && (forall k :: k in r && k != ContentId(section) ==> r[k] == dom[k])
    ensures ContentId(section) !in dom ==> r == dom
  {
    var id := ContentId(section);
    if id in dom then Replace(dom[id := dom[id].(display := "block")], id, ErrorPanel(EscapeHtml(message))) else dom
  }

  /**
   * One section load: loading shown, then either the writes of a successful
   * fetch or the error panel, then loading hidden (js/analytics.js:24-50,
   * 88-114, 117-145, 148-177). `Err` carries `err.message`.
   */
  function LoadIn(dom: Dom, section: string, outcome: Result<seq<Write>, string>): Dom {
    var d := SetLoadingIn(dom, section, true);
    var d' := match outcome
      case Ok(ws) => ApplyWrites(d, ws)
      case Err(message) => ShowSectionErrorIn(d, section, message);
    SetLoadingIn(d', section, false)
  }

  /** No write aims at a content region. */
  predicate OutsideRegions(ws: seq<Write>) {
    forall i :: 0 <= i < |ws| ==> !IsRegion(ws[i].id)
  }

  /** No other write of the list aims at the element write `i` aims at. */
  predicate OnlyWriteTo(ws: seq<Write>, i: nat)
    requires i < |ws|
  {
    forall j :: 0 <= j < |ws| && j != i ==> ws[j].id != ws[i].id
  }

  /**
   * Writes outside the regions keep every element and its display, leave
   * alone the elements no write aims at, and leave in each element aimed at
   * once exactly what was written.
   */
  lemma {:induction false} ApplyWritesPlain(dom: Dom, ws: seq<Write>)
    requires Layout(dom) && OutsideRegions(ws)
    ensures ApplyWrites(dom, ws).Keys == dom.Keys
    ensures Layout(ApplyWrites(dom, ws))
    ensures forall k :: k in dom ==>
      ApplyWrites(dom, ws)[k].display == dom[k].display && ApplyWrites(dom, ws)[k].region == dom[k].region
    ensures forall k :: k in dom && (forall i :: 0 <= i < |ws| ==> ws[i].id != k) ==> ApplyWrites(dom, ws)[k] == dom[k]
    ensures forall i :: 0 <= i < |ws| && ws[i].id in dom && OnlyWriteTo(ws, i) ==>
      ApplyWrites(dom, ws)[ws[i].id].content == ws[i].content
    decreases |ws|
  {
    if ws != [] {
      var d := WriteIn(dom, ws[0]);
      if ws[0].id in dom {
        ReplacePlain(dom, ws[0].id, ws[0].content);
      }
      assert Layout(d);
      var tail := ws[1..];
      assert OutsideRegions(tail);
      ApplyWritesPlain(d, tail);
      var r := ApplyWrites(dom, ws);
      assert r == ApplyWrites(d, tail);
      forall k | k in dom && (forall i :: 0 <= i < |ws| ==> ws[i].id != k)
        ensures r[k] == dom[k]
      {
        assert ws[0].id != k;
        assert forall i :: 0 <= i < |tail| ==> tail[i].id == ws[i + 1].id;
      }
      forall i | 0 <= i < |ws| && ws[i].id in dom && OnlyWriteTo(ws, i)
        ensures r[ws[i].id].content == ws[i].content
      {
        if i == 0 {
          forall j | 0 <= j < |tail| ensures tail[j].id != ws[0].id {
            assert tail[j] == ws[j + 1];
          }
        } else {
          assert tail[i - 1] == ws[i];
          forall j | 0 <= j < |tail| && j != i - 1 ensures tail[j].id != tail[i - 1].id {
            assert tail[j] == ws[j + 1];
          }
          assert OnlyWriteTo(tail, i - 1);
        }
      }
    }
  }

  /**
   * Both paths of a load end with the loading indicator hidden and the content
   * region shown: never both hidden, never both visible.
   */
  lemma LoadEndsShown(dom: Dom, section: string, outcome: Result<seq<Write>, string>)
    requires IsLoaded(section) && Layout(dom)
    requires outcome.Ok? ==> OutsideRegions(outcome.value)
    ensures var r := LoadIn(dom, section, outcome);
      && (ContentId(section) in dom ==> ContentId(section) in r && r[ContentId(section)].display == "block")
      && (LoadingId(section) in r ==> r[LoadingId(section)].display == "none")
  {
    var d := SetLoadingIn(dom, section, true);
    ContentIdIsRegion(section);
    if outcome.Ok? {
      ApplyWritesPlain(d, outcome.value);
    }
  }

  /**
   * On a failed fetch the content region holds the error panel with the
   * escaped message, the elements that lay in it are gone, and every other
   * element keeps its display and content.
   */
  lemma LoadFailure(dom: Dom, section: string, message: string)
    requires IsLoaded(section) && ContentId(section) in dom
    ensures var r := LoadIn(dom, section, Err(message));
      && ContentId(section) in r
      && r[ContentId(section)].content == ErrorPanel(EscapeHtml(message))
      && HtmlSafe(r[ContentId(section)].content.message)
      && (forall k :: k in r <==> k in dom && (k == ContentId(section) || dom[k].region != Some(ContentId(section))))
      && (forall k :: k in r && k != ContentId(section) && k != LoadingId(section) ==> r[k] == dom[k])
  {
    LoadingIdNotContentId(section);
    EscapeHtmlSafe(message);
  }

  /**
   * On a successful fetch every element stays, the content region keeps what
   * it held (a panel left by an earlier failure stays), and an element no
   * write aims at is unchanged apart from the loading and content displays.
   */
  lemma LoadSuccess(dom: Dom, section: string, ws: seq<Write>)
    requires IsLoaded(section) && Layout(dom) && OutsideRegions(ws)
    ensures var r := LoadIn(dom, section, Ok(ws));
      && r.Keys == dom.Keys
      && Layout(r)
      && (ContentId(section) in dom ==> r[ContentId(section)].content == dom[ContentId(section)].content)
      && (forall k :: k in dom && k != LoadingId(section) && k != ContentId(section) && (forall i :: 0 <= i < |ws| ==> ws[i].id != k)
            ==> r[k] == dom[k])
      && (forall i :: 0 <= i < |ws| && ws[i].id in dom && OnlyWriteTo(ws, i) ==> r[ws[i].id].content == ws[i].content)
  {
    var d := SetLoadingIn(dom, section, true);
    ContentIdIsRegion(section);
    ApplyWritesPlain(d, ws);
    forall k | k in dom && k != LoadingId(section) && k != ContentId(section) && (forall i :: 0 <= i < |ws| ==> ws[i].id != k)
      ensures LoadIn(dom, section, Ok(ws))[k] == dom[k]
    {
    }
  }

  /** Once a section failed, a later successful load still shows the error panel. */
  lemma ErrorPersists(dom: Dom, section: string, message: string, ws: seq<Write>)
    requires IsLoaded(section) && Layout(dom) && ContentId(section) in dom && OutsideRegions(ws)
    ensures var failed := LoadIn(dom, section, Err(message));
      && Layout(failed) && ContentId(section) in failed
      && ContentId(section) in LoadIn(failed, section, Ok(ws))
      && LoadIn(failed, section, Ok(ws))[ContentId(section)].content == ErrorPanel(EscapeHtml(message))
  {
    LoadFailure(dom, section, message);
    var failed := LoadIn(dom, section, Err(message));
    ContentIdIsRegion(section);
    assert Layout(failed);
    LoadSuccess(failed, section, ws);
  }

  // ── Payloads ─────────────────────────────────────────────────

  /** `data.totals` of the overview; a missing number or text is `None`. */
  datatype Totals = Totals(
    sessions: Option<int>,
    users: Option<int>,
    newUsers: Option<int>,
    pageViews: Option<int>,
    bounceRate: Option<string>,
    avgDuration: Option<string>)

  datatype DayStat = DayStat(date: string, sessions: int, users: int)
  datatype OverviewData = OverviewData(totals: Totals, rows: seq<DayStat>)

  /** Fields shown without formatting are carried as the text `${...}` makes of them. */
  datatype ActivePage = ActivePage(page: string, users: string)
  datatype RealtimeData = RealtimeData(totalUsers: string, pages: seq<ActivePage>)

  datatype DeviceStat = DeviceStat(device: string, users: int)
  datatype CountryStat = CountryStat(country: string, users: int, sessions: int)
  datatype AudienceData = AudienceData(devices: seq<DeviceStat>, countries: seq<CountryStat>)

  datatype ChannelStat = ChannelStat(channel: string, sessions: int, users: int, bounceRate: string, conversions: int)
  datatype AcquisitionData = AcquisitionData(channels: seq<ChannelStat>)

  datatype EventStat = EventStat(event: string, count: int)
  datatype PageStat = PageStat(path: string, views: int, users: int, avgDuration: string, bounceRate: string)
  datatype BehaviorData = BehaviorData(events: seq<EventStat>, pages: seq<PageStat>)

  // ── Overview ─────────────────────────────────────────────────

  const NoValue: string := "—"

  /** `value || 0` for a number that may be missing. */
  function NumberOrZero(value: Option<int>): int {
    value.GetOr(0)
  }

  /** `totals.bounceRate || '—'`. */
  function TextOrDash(value: Option<string>): (r: string)
    ensures r == NoValue <==> value.None? || value.value == "" || value.value == NoValue
    ensures r != NoValue ==> value == Some(r)
  {
    if value.Some? && value.value != "" then value.value else NoValue
  }

  /** The KPI texts of js/analytics.js:31-36, in order. */
  function KpiWrites(t: Totals): (ws: seq<Write>)
    ensures |ws| == 6
    ensures ws[0] == Write("kpi-sessions", TextContent(FormatNumber(NumberOrZero(t.sessions))))
    ensures ws[1] == Write("kpi-users", TextContent(FormatNumber(NumberOrZero(t.users))))
    ensures ws[2] == Write("kpi-new-users", TextContent(FormatNumber(NumberOrZero(t.newUsers))))
    ensures ws[3] == Write("kpi-pageviews", TextContent(FormatNumber(NumberOrZero(t.pageViews))))
    ensures ws[4] == Write("kpi-bounce", TextContent(TextOrDash(t.bounceRate)))
    ensures ws[5] == Write("kpi-duration", TextContent(FormatDuration(ParseIntOrZero(t.avgDuration))))
  {
    [ Write("kpi-sessions", TextContent(FormatNumber(NumberOrZero(t.sessions)))),
      Write("kpi-users", TextContent(FormatNumber(NumberOrZero(t.users)))),
      Write("kpi-new-users", TextContent(FormatNumber(NumberOrZero(t.newUsers)))),
      Write("kpi-pageviews", TextContent(FormatNumber(NumberOrZero(t.pageViews)))),
      Write("kpi-bounce", TextContent(TextOrDash(t.bounceRate))),
      Write("kpi-duration", TextContent(FormatDuration(ParseIntOrZero(t.avgDuration)))) ]
  }

  /** Each KPI is written once and none of them is a content region. */
  lemma KpiWritesPlain(t: Totals)
    ensures OutsideRegions(KpiWrites(t))
    ensures forall i :: 0 <= i < 6 ==> OnlyWriteTo(KpiWrites(t), i)
  {
    var ws := KpiWrites(t);
    assert ws[0].id[4] == 's' && ws[1].id[4] == 'u' && ws[2].id[4] == 'n';
    assert ws[3].id[4] == 'p' && ws[4].id[4] == 'b' && ws[5].id[4] == 'd';
    forall i | 0 <= i < 6 ensures ws[i].id[0] == 'k' {
    }
  }

  /** A missing or zero total shows as `0`, and a missing duration as `0s`. */
  lemma KpiDefaults()
    ensures var ws := KpiWrites(Totals(None, None, None, None, None, None));
      && ws[0].content == TextContent("0") && ws[1].content == TextContent("0")
      && ws[2].content == TextContent("0") && ws[3].content == TextContent("0")
      && ws[4].content == TextContent(NoValue)
      && ws[5].content == TextContent("0s")
  {
    assert FormatNumber(0) == Decimal(0);
    assert ParseIntOrZero(None) == 0;
    assert JsRem(0, 60) == 0;
  }

  /** `data.rows.map(r => formatDate(r.date))`. */
  function OverviewLabels(rows: seq<DayStat>): (r: seq<string>)
    ensures |r| == |rows|
    ensures forall i :: 0 <= i < |rows| ==> r[i] == FormatDate(rows[i].date)
  {
    seq(|rows|, i requires 0 <= i < |rows| => FormatDate(rows[i].date))
  }

  /** The two series of the line chart (js/analytics.js:40-45). */
  function OverviewSeries(rows: seq<DayStat>): (r: seq<Dataset>)
    ensures |r| == 2 && r[0].name == "Sessions" && r[1].name == "Users"
    ensures |r[0].data| == |rows| && |r[1].data| == |rows|
    ensures forall i :: 0 <= i < |rows| ==> r[0].data[i] == rows[i].sessions && r[1].data[i] == rows[i].users
  {
    [ Dataset("Sessions", seq(|rows|, i requires 0 <= i < |rows| => rows[i].sessions)),
      Dataset("Users", seq(|rows|, i requires 0 <= i < |rows| => rows[i].users)) ]
  }

  /** Labels and series read back, day by day, as the rows they came from. */
  lemma OverviewChartReadBack(rows: seq<DayStat>)
    requires forall i :: 0 <= i < |rows| ==> |rows[i].date| == 8
    ensures var labels, series := OverviewLabels(rows), OverviewSeries(rows);
      forall i :: 0 <= i < |rows| ==>
        labels[i] == rows[i].date[4..6] + "/" + rows[i].date[6..8]
        && series[0].data[i] == rows[i].sessions && series[1].data[i] == rows[i].users
  {
    forall i | 0 <= i < |rows| ensures FormatDate(rows[i].date) == rows[i].date[4..6] + "/" + rows[i].date[6..8] {
      FormatDateOfString(rows[i].date);
    }
  }

  /** `data.devices.map(d => d.device)` and `data.devices.map(d => d.users)` (js/analytics.js:93-97). */
  function DeviceLabels(devices: seq<DeviceStat>): seq<string> {
    seq(|devices|, i requires 0 <= i < |devices| => devices[i].device)
  }

  function DeviceUsers(devices: seq<DeviceStat>): seq<int> {
    seq(|devices|, i requires 0 <= i < |devices| => devices[i].users)
  }

  /** The channels chart of js/analytics.js:122-127: one `Sessions` dataset. */
  function ChannelLabels(channels: seq<ChannelStat>): seq<string> {
    seq(|channels|, i requires 0 <= i < |channels| => channels[i].channel)
  }

  function ChannelSeries(channels: seq<ChannelStat>): seq<Dataset> {
    [Dataset("Sessions", seq(|channels|, i requires 0 <= i < |channels| => channels[i].sessions))]
  }

  /** The events chart of js/analytics.js:153-158: one `Event Count` dataset. */
  function EventLabels(events: seq<EventStat>): seq<string> {
    seq(|events|, i requires 0 <= i < |events| => events[i].event)
  }

  function EventSeries(events: seq<EventStat>): seq<Dataset> {
    [Dataset("Event Count", seq(|events|, i requires 0 <= i < |events| => events[i].count))]
  }

  /**
   * The overview chart has a legend (two series); the channels chart is a
   * horizontal bar chart and the events chart a vertical one, both without one.
   */
  lemma SectionChartOptions(rows: seq<DayStat>, channels: seq<ChannelStat>, events: seq<EventStat>)
    ensures LineConfigOf(OverviewLabels(rows), OverviewSeries(rows)).legend
    ensures var c := BarConfigOf(ChannelLabels(channels), ChannelSeries(channels), true);
      !c.legend && c.indexAxis == Y
    ensures var c := BarConfigOf(EventLabels(events), EventSeries(events), false);
      !c.legend && c.indexAxis == X
  {
  }

  /** The device doughnut holds one slice per device, in order: its name as label, its users as value. */
  lemma DeviceChartReadBack(devices: seq<DeviceStat>)
    ensures var c := DoughnutConfigOf(DeviceLabels(devices), DeviceUsers(devices));
      && |c.labels| == |devices| && |c.data| == |devices|
      && forall i :: 0 <= i < |devices| ==> c.labels[i] == devices[i].device && c.data[i] == devices[i].users
  {
  }

  /** The channels chart has one bar per channel, in order, in one `Sessions` dataset of the first colour. */
  lemma ChannelChartReadBack(channels: seq<ChannelStat>)
    ensures var c := BarConfigOf(ChannelLabels(channels), ChannelSeries(channels), true);
      && |c.labels| == |channels| && |c.datasets| == 1
      && c.datasets[0].name == "Sessions" && c.datasets[0].color == Palette[0]
      && |c.datasets[0].data| == |channels|
      && forall i :: 0 <= i < |channels| ==>
           c.labels[i] == channels[i].channel && c.datasets[0].data[i] == channels[i].sessions
  {
    var c := BarConfigOf(ChannelLabels(channels), ChannelSeries(channels), true);
    assert Unstyle(c.datasets)[0] == ChannelSeries(channels)[0];
  }

  /** The events chart has one bar per event, in order, in one `Event Count` dataset of the first colour. */
  lemma EventChartReadBack(events: seq<EventStat>)
    ensures var c := BarConfigOf(EventLabels(events), EventSeries(events), false);
      && |c.labels| == |events| && |c.datasets| == 1
      && c.datasets[0].name == "Event Count" && c.datasets[0].color == Palette[0]
      && |c.datasets[0].data| == |events|
      && forall i :: 0 <= i < |events| ==>
           c.labels[i] == events[i].event && c.datasets[0].data[i] == events[i].count
  {
    var c := BarConfigOf(EventLabels(events), EventSeries(events), false);
    assert Unstyle(c.datasets)[0] == EventSeries(events)[0];
  }

  // ── Tables ──────────────────────────────────────────────────

  const NoData: string := "No data"
  const NoActivePages: string := "No active pages"

  function CountryRow(c: CountryStat, i: nat): Row {
    Row([Decimal(i + 1), EscapeHtml(c.country), FormatNumber(c.users), FormatNumber(c.sessions)], None)
  }

  /** `country-table-body` (js/analytics.js:101-108). */
  function CountryTable(countries: seq<CountryStat>): (c: Content)
    ensures countries == [] <==> c == Placeholder(NoData, 4)
    ensures countries != [] ==> c.Rows? && |c.rows| == |countries|
  {
    if countries == [] then Placeholder(NoData, 4) else Rows(MapIndexed(countries, CountryRow))
  }

  function ChannelRow(c: ChannelStat, i: nat): Row {
    Row([EscapeHtml(c.channel), FormatNumber(c.sessions), FormatNumber(c.users), c.bounceRate, FormatNumber(c.conversions)], None)
  }

  /** `acq-table-body` (js/analytics.js:131-139). */
  function ChannelTable(channels: seq<ChannelStat>): (c: Content)
    ensures channels == [] <==> c == Placeholder(NoData, 5)
    ensures channels != [] ==> c.Rows? && |c.rows| == |channels|
  {
    if channels == [] then Placeholder(NoData, 5) else Rows(MapIndexed(channels, ChannelRow))
  }

  function PageRow(p: PageStat, i: nat): Row {
    Row([Decimal(i + 1), EscapeHtml(p.path), FormatNumber(p.views), FormatNumber(p.users), p.avgDuration, p.bounceRate],
      Some(EscapeHtml(p.path)))
  }

  /** `pages-table-body` (js/analytics.js:162-171). */
  function PageTable(pages: seq<PageStat>): (c: Content)
    ensures pages == [] <==> c == Placeholder(NoData, 6)
    ensures pages != [] ==> c.Rows? && |c.rows| == |pages|
  {
    if pages == [] then Placeholder(NoData, 6) else Rows(MapIndexed(pages, PageRow))
  }

  function ActivePageRow(p: ActivePage, i: nat): Row {
    Row([EscapeHtml(p.page), p.users], None)
  }

  /** `rt-pages-list` (js/analytics.js:67-78). */
  function ActivePagesList(pages: seq<ActivePage>): (c: Content)
    ensures pages == [] <==> c == Placeholder(NoActivePages, 2)
    ensures pages != [] ==> c.Rows? && |c.rows| == |pages|
  {
    if pages == [] then Placeholder(NoActivePages, 2) else Rows(MapIndexed(pages, ActivePageRow))
  }

  /** Row `i` of the countries table reads back as rank `i + 1` and the country's own name. */
  lemma CountryTableReadBack(countries: seq<CountryStat>, i: nat)
    requires i < |countries|
    ensures var row := CountryTable(countries).rows[i];
      && |row.cells| == 4
      && AllDigits(row.cells[0]) && ParseNat(row.cells[0]) == i + 1
      && HtmlSafe(row.cells[1]) && Unescape(row.cells[1]) == countries[i].country
      && row.cells[2] == FormatNumber(countries[i].users) && row.cells[3] == FormatNumber(countries[i].sessions)
  {
    ParseNatDecimal(i + 1);
    EscapeHtmlSafe(countries[i].country);
    UnescapeEscapeHtml(countries[i].country);
  }

  /** Row `i` of the channels table reads back as the `i`-th channel. */
  lemma ChannelTableReadBack(channels: seq<ChannelStat>, i: nat)
    requires i < |channels|
    ensures var row := ChannelTable(channels).rows[i];
      && |row.cells| == 5
      && HtmlSafe(row.cells[0]) && Unescape(row.cells[0]) == channels[i].channel
      && row.cells[1] == FormatNumber(channels[i].sessions) && row.cells[2] == FormatNumber(channels[i].users)
      && row.cells[3] == channels[i].bounceRate && row.cells[4] == FormatNumber(channels[i].conversions)
  {
    EscapeHtmlSafe(channels[i].channel);
    UnescapeEscapeHtml(channels[i].channel);
  }

  /** Row `i` of the pages table reads back as rank `i + 1` and the `i`-th path, in cell and title. */
  lemma PageTableReadBack(pages: seq<PageStat>, i: nat)
    requires i < |pages|
    ensures var row := PageTable(pages).rows[i];
      && |row.cells| == 6
      && AllDigits(row.cells[0]) && ParseNat(row.cells[0]) == i + 1
      && HtmlSafe(row.cells[1]) && Unescape(row.cells[1]) == pages[i].path
      && row.title == Some(row.cells[1])
      && row.cells[2] == FormatNumber(pages[i].views) && row.cells[3] == FormatNumber(pages[i].users)
      && row.cells[4] == pages[i].avgDuration && row.cells[5] == pages[i].bounceRate
  {
    ParseNatDecimal(i + 1);
    EscapeHtmlSafe(pages[i].path);
    UnescapeEscapeHtml(pages[i].path);
  }

  /** Row `i` of the real-time list reads back as the `i`-th page and its user count. */
  lemma ActivePagesReadBack(pages: seq<ActivePage>, i: nat)
    requires i < |pages|
    ensures var row := ActivePagesList(pages).rows[i];
      && |row.cells| == 2
      && HtmlSafe(row.cells[0]) && Unescape(row.cells[0]) == pages[i].page
      && row.cells[1] == pages[i].users
  {
    EscapeHtmlSafe(pages[i].page);
    UnescapeEscapeHtml(pages[i].page);
  }

  /** The bounce-rate cell is inserted without escaping, so markup in it reaches the page. */
  lemma RawBounceRateCell(channel: string, rate: string)
    requires '<' in rate
    ensures var row := ChannelTable([ChannelStat(channel, 0, 0, rate, 0)]).rows[0];
      !HtmlSafe(row.cells[3])
  {
    var k :| 0 <= k < |rate| && rate[k] == '<';
  }

  // ── Section writes ──────────────────────────────────────────

  /** What a successful overview fetch writes (the chart is the registry's). */
  function OverviewWrites(data: OverviewData): seq<Write> {
    KpiWrites(data.totals)
  }

  function AudienceWrites(data: AudienceData): seq<Write> {
    [Write("country-table-body", CountryTable(data.countries))]
  }

  function AcquisitionWrites(data: AcquisitionData): seq<Write> {
    [Write("acq-table-body", ChannelTable(data.channels))]
  }

  function BehaviorWrites(data: BehaviorData): seq<Write> {
    [Write("pages-table-body", PageTable(data.pages))]
  }

  /** A fetch outcome turned into the writes it causes. */
  function OverviewOutcome(reply: Result<OverviewData, string>): Result<seq<Write>, string> {
    match reply
    case Ok(data) => Ok(OverviewWrites(data))
    case Err(message) => Err(message)
  }

  function AudienceOutcome(reply: Result<AudienceData, string>): Result<seq<Write>, string> {
    match reply
    case Ok(data) => Ok(AudienceWrites(data))
    case Err(message) => Err(message)
  }

  function AcquisitionOutcome(reply: Result<AcquisitionData, string>): Result<seq<Write>, string> {
    match reply
    case Ok(data) => Ok(AcquisitionWrites(data))
    case Err(message) => Err(message)
  }

  function BehaviorOutcome(reply: Result<BehaviorData, string>): Result<seq<Write>, string> {
    match reply
    case Ok(data) => Ok(BehaviorWrites(data))
    case Err(message) => Err(message)
  }

  /** None of the tables is a content region. */
  lemma TableWritesPlain(a: AudienceData, b: AcquisitionData, c: BehaviorData)
    ensures OutsideRegions(AudienceWrites(a)) && OnlyWriteTo(AudienceWrites(a), 0)
    ensures OutsideRegions(AcquisitionWrites(b)) && OnlyWriteTo(AcquisitionWrites(b), 0)
    ensures OutsideRegions(BehaviorWrites(c)) && OnlyWriteTo(BehaviorWrites(c), 0)
  {
    assert "country-table-body"[0] == 'c' && "acq-table-body"[0] == 'a' && "pages-table-body"[0] == 'p';
  }

  // ── Real-time ───────────────────────────────────────────────

  /** What a successful real-time fetch writes; `clock` is `toLocaleTimeString()`. */
  function RealtimeWrites(data: RealtimeData, clock: string): seq<Write> {
    [ Write("rt-count", TextContent(data.totalUsers)),
      Write("rt-updated", TextContent("Updated " + clock)),
      Write("rt-pages-list", ActivePagesList(data.pages)) ]
  }

  /** `fetchRealtimeData()` (js/analytics.js:59-82): the writes, or `—` in the counter. */
  function RealtimeIn(dom: Dom, reply: Result<RealtimeData, string>, clock: string): Dom {
    match reply
    case Ok(data) => ApplyWrites(dom, RealtimeWrites(data, clock))
    case Err(_) => SetTextIn(dom, "rt-count", NoValue)
  }

  /** A failed poll changes the counter's text to `—` and nothing else. */
  lemma RealtimeFailure(dom: Dom, message: string, clock: string)
    requires Layout(dom)
    ensures var r := RealtimeIn(dom, Err(message), clock);
      && r.Keys == dom.Keys
      && Layout(r)
      && ("rt-count" in dom ==> r["rt-count"] == dom["rt-count"].(content := TextContent(NoValue)))
      && (forall k :: k in dom && k != "rt-count" ==> r[k] == dom[k])
  {
    if "rt-count" in dom {
      assert !IsRegion("rt-count") by { assert "rt-count"[0] == 'r'; }
      ReplacePlain(dom, "rt-count", TextContent(NoValue));
    }
  }

  /** A successful poll shows the count, the time and the page list, and keeps every element. */
  lemma RealtimeSuccess(dom: Dom, data: RealtimeData, clock: string)
    requires Layout(dom)
    ensures var r := RealtimeIn(dom, Ok(data), clock);
      && r.Keys == dom.Keys
      && Layout(r)
      && ("rt-count" in dom ==> r["rt-count"].content == TextContent(data.totalUsers))
      && ("rt-updated" in dom ==> r["rt-updated"].content == TextContent("Updated " + clock))
      && ("rt-pages-list" in dom ==> r["rt-pages-list"].content == ActivePagesList(data.pages))
      && (forall k :: k in dom && k != "rt-count" && k != "rt-updated" && k != "rt-pages-list" ==> r[k] == dom[k])
  {
    var ws := RealtimeWrites(data, clock);
    assert ws[0].id[3] == 'c' && ws[1].id[3] == 'u' && ws[2].id[3] == 'p';
    assert forall i :: 0 <= i < 3 ==> ws[i].id[0] == 'r';
    assert OutsideRegions(ws);
    assert OnlyWriteTo(ws, 0) && OnlyWriteTo(ws, 1) && OnlyWriteTo(ws, 2);
    ApplyWritesPlain(dom, ws);
  }
}
