/**
 * The mutable side of js/analytics.js: the module-level `currentSiteId`,
 * `currentDateRange` and `realtimeInterval`, the document the loaders write
 * into, and the chart registry. Each `await` of a loader is one atomic step:
 * the API's answer is an input (`Ok` with the payload, or `Err` with
 * `err.message`), and timers are a set of active interval ids.
 */
module Analytics {
  import opened Prelude
  import opened Escape
  import opened Formatters
  import opened Charts
  import opened Render
  import Api

  /** The date range the page starts with (js/analytics.js:8). */
  const InitialDateRange: string := "7daysAgo"

  /** The sections `loadSection` knows. */
  datatype Section = OverviewSection | RealtimeSection | AudienceSection | AcquisitionSection | BehaviorSection

  function SectionName(s: Section): string {
    match s
    case OverviewSection => "overview"
    case RealtimeSection => "realtime"
    case AudienceSection => "audience"
    case AcquisitionSection => "acquisition"
    case BehaviorSection => "behavior"
  }

  predicate IsSectionName(name: string) {
    name == "overview" || name == "realtime" || name == "audience" || name == "acquisition" || name == "behavior"
  }

  /** `!currentSiteId` is false: a site id that is set and not empty. */
  predicate Selected(siteId: Option<string>) {
    siteId.Some? && siteId.value != ""
  }

  /** `${currentSiteId}`: an unset id is interpolated as `null`. */
  function SiteParam(siteId: Option<string>): string {
    if siteId.Some? then siteId.value else "null"
  }

  /** The guard and `switch` of `loadSection` (js/analytics.js:12-21): which loader runs, if any. */
  function Dispatch(siteId: Option<string>, name: string): (r: Option<Section>)
    ensures r.Some? ==> Selected(siteId) && SectionName(r.value) == name
    ensures Selected(siteId) && IsSectionName(name) ==> r.Some?
  {
    if !Selected(siteId) then None
    else if name == "overview" then Some(OverviewSection)
    else if name == "realtime" then Some(RealtimeSection)
    else if name == "audience" then Some(AudienceSection)
    else if name == "acquisition" then Some(AcquisitionSection)
    else if name == "behavior" then Some(BehaviorSection)
    else None
  }

  /** Each section's own name dispatches to exactly that section once a site is selected. */
  lemma DispatchName(siteId: Option<string>, s: Section)
    requires Selected(siteId)
    ensures Dispatch(siteId, SectionName(s)) == Some(s)
  {
  }

  /** With no site selected nothing is dispatched, whatever the name. */
  lemma DispatchUnselected(name: string)
    ensures Dispatch(None, name).None? && Dispatch(Some(""), name).None?
  {
  }

  /** Whether the loader `loadSection` runs draws a chart: a section with a chart whose fetch succeeded. */
  predicate DrawsChart(section: Option<Section>, replies: Replies) {
    match section
    case Some(OverviewSection) => replies.overview.Ok?
    case Some(AudienceSection) => replies.audience.Ok?
    case Some(AcquisitionSection) => replies.acquisition.Ok?
    case Some(BehaviorSection) => replies.behavior.Ok?
    case _ => false
  }

  /**
   * The registry after an `init*Chart(id, ...)`: the prior chart for `id` is
   * destroyed, and `chart` is stored for `id` if its canvas is present.
   */
  predicate Redrawn(before: map<string, Chart>, destroyedBefore: seq<nat>, after: map<string, Chart>,
                    destroyedAfter: seq<nat>, id: string, present: bool, chart: Chart)
  {
    && destroyedAfter == destroyedBefore + Prior(before, id)
    && (present ==> after == before[id := chart])
    && (!present ==> after == Evicted(before, id))
  }

  /** The answer each API call of the loaders gets. */
  datatype Replies = Replies(
    overview: Result<OverviewData, string>,
    realtime: Result<RealtimeData, string>,
    audience: Result<AudienceData, string>,
    acquisition: Result<AcquisitionData, string>,
    behavior: Result<BehaviorData, string>)

  /** The document, as far as the dashboard looks into it. */
  class Page {
    var dom: Dom

    constructor(initial: Dom)
      ensures dom == initial
    {
      dom := initial;
    }

    /** `setText(id, value)` (js/analytics.js:180-183). */
    method SetText(id: string, value: string)
      modifies this
      ensures dom == SetTextIn(old(dom), id, value)
    {
      if id in dom {
        dom := Replace(dom, id, TextContent(value));
      }
    }

    /** `el.innerHTML = ...` guarded by `if (el)`. */
    method SetHtml(id: string, content: Content)
      modifies this
      ensures dom == WriteIn(old(dom), Write(id, content))
    {
      if id in dom {
        dom := Replace(dom, id, content);
      }
    }

    /** The six `setText` calls of js/analytics.js:31-36. */
    method SetKpis(t: Totals)
      modifies this
      ensures dom == ApplyWrites(old(dom), KpiWrites(t))
      ensures Layout(old(dom)) ==> dom.Keys == old(dom).Keys
    {
      ghost var d := dom;
      ghost var ws := KpiWrites(t);
      SetText("kpi-sessions", FormatNumber(NumberOrZero(t.sessions)));
      SetText("kpi-users", FormatNumber(NumberOrZero(t.users)));
      SetText("kpi-new-users", FormatNumber(NumberOrZero(t.newUsers)));
      SetText("kpi-pageviews", FormatNumber(NumberOrZero(t.pageViews)));
      SetText("kpi-bounce", TextOrDash(t.bounceRate));
      SetText("kpi-duration", FormatDuration(ParseIntOrZero(t.avgDuration)));
      ApplyWritesSix(d, ws);
      if Layout(d) {
        KpiWritesPlain(t);
        ApplyWritesPlain(d, ws);
      }
    }

    /** `setLoading(section, loading)` (js/analytics.js:193-198). */
    method SetLoading(section: string, loading: bool)
      modifies this
      ensures dom == SetLoadingIn(old(dom), section, loading)
    {
      var el := LoadingId(section);
      if el in dom {
        dom := dom[el := dom[el].(display := if loading then "flex" else "none")];
      }
      var content := ContentId(section);
      if content in dom {
        dom := dom[content := dom[content].(display := if loading then "none" else "block")];
      }
    }

    /** `showSectionError(section, message)` (js/analytics.js:200-212). */
    method ShowSectionError(section: string, message: string)
      modifies this
      ensures dom == ShowSectionErrorIn(old(dom), section, message)
    {
      var content := ContentId(section);
      if content in dom {
        dom := dom[content := dom[content].(display := "block")];
        dom := Replace(dom, content, ErrorPanel(EscapeHtml(message)));
      }
    }
  }

  /** The state of js/analytics.js. */
  class Dashboard {
    const page: Page
    const charts: Registry
    /** `currentSiteId`; `None` is `null`. */
    var siteId: Option<string>
    /** `currentDateRange`. */
    var dateRange: string
    /** `realtimeInterval`; `None` is `null`. */
    var realtimeInterval: Option<nat>
    /** The intervals that are armed. */
    var timers: set<nat>
    /** The id the next `setInterval` returns. */
    var nextTimer: nat
    /** The API calls made, in order. */
    var calls: seq<Api.Call>

    /**
     * The registry is consistent, the page has the expected layout, and the
     * only interval that can be armed is the one `realtimeInterval` holds.
     */
    ghost predicate Valid()
      reads this, page, charts
    {
      && charts.Valid()
      && Layout(page.dom)
      && (realtimeInterval.None? ==> timers == {})
      && (realtimeInterval.Some? ==> timers <= {realtimeInterval.value} && realtimeInterval.value < nextTimer)
    }

    constructor(initial: Dom)
      requires Layout(initial)
      ensures Valid() && fresh(page) && fresh(charts)
      ensures page.dom == initial && charts.charts == map[] && charts.destroyed == []
      ensures siteId == None && dateRange == InitialDateRange
      ensures realtimeInterval == None && timers == {} && calls == []
    {
      page := new Page(initial);
      charts := new Registry();
      siteId := None;
      dateRange := InitialDateRange;
      realtimeInterval := None;
      timers := {};
      nextTimer := 0;
      calls := [];
    }

    /** The page assigns `currentSiteId` when a site is picked. */
    method SelectSite(site: Option<string>)
      modifies this
      ensures siteId == site
      ensures dateRange == old(dateRange) && realtimeInterval == old(realtimeInterval)
      ensures timers == old(timers) && nextTimer == old(nextTimer) && calls == old(calls)
    {
      siteId := site;
    }

    /** The page assigns `currentDateRange` when a range is picked. */
    method SelectDateRange(range: string)
      modifies this
      ensures dateRange == range
      ensures siteId == old(siteId) && realtimeInterval == old(realtimeInterval)
      ensures timers == old(timers) && nextTimer == old(nextTimer) && calls == old(calls)
    {
      dateRange := range;
    }

    /** `loadOverview()` (js/analytics.js:24-50). */
    method LoadOverview(reply: Result<OverviewData, string>)
      requires Valid()
      modifies this, page, charts
      ensures Valid()
      ensures page.dom == LoadIn(old(page.dom), "overview", OverviewOutcome(reply))
      ensures calls == old(calls) + [Api.Overview(SiteParam(siteId), dateRange, "today")]
      ensures siteId == old(siteId) && dateRange == old(dateRange)
      ensures realtimeInterval == old(realtimeInterval) && timers == old(timers) && nextTimer == old(nextTimer)
      ensures reply.Err? ==> charts.charts == old(charts.charts) && charts.destroyed == old(charts.destroyed)
      ensures reply.Ok? ==> charts.destroyed == old(charts.destroyed) + Prior(old(charts.charts), "overview-chart")
      ensures reply.Ok? && "overview-chart" in old(page.dom) ==>
        charts.charts == old(charts.charts)["overview-chart" :=
          Chart(old(charts.next), LineConfigOf(OverviewLabels(reply.value.rows), OverviewSeries(reply.value.rows)))]
      ensures reply.Ok? && "overview-chart" !in old(page.dom) ==> charts.charts == Evicted(old(charts.charts), "overview-chart")
    {
      ghost var d0 := page.dom;
      page.SetLoading("overview", true);
      ghost var d1 := page.dom;
      calls := calls + [Api.Overview(SiteParam(siteId), dateRange, "today")];
      match reply {
        case Ok(data) =>
          assert Layout(d1) && ("overview-chart" in d1 <==> "overview-chart" in d0);
          ShowOverview(data);
          KpiWritesPlain(data.totals);
        case Err(message) =>
          page.ShowSectionError("overview", message);
      }
      page.SetLoading("overview", false);
      assert page.dom == LoadIn(d0, "overview", OverviewOutcome(reply));
      LoadKeepsLayout(d0, "overview", OverviewOutcome(reply));
    }

    /** The success path of `loadOverview` (js/analytics.js:29-45): the KPI cards, then the chart. */
    method ShowOverview(data: OverviewData)
      requires charts.Valid() && Layout(page.dom)
      modifies page, charts
      ensures charts.Valid()
      ensures page.dom == ApplyWrites(old(page.dom), OverviewWrites(data))
      ensures page.dom.Keys == old(page.dom).Keys
      ensures charts.destroyed == old(charts.destroyed) + Prior(old(charts.charts), "overview-chart")
      ensures "overview-chart" in old(page.dom) ==>
        charts.charts == old(charts.charts)["overview-chart" :=
          Chart(old(charts.next), LineConfigOf(OverviewLabels(data.rows), OverviewSeries(data.rows)))]
      ensures "overview-chart" !in old(page.dom) ==> charts.charts == Evicted(old(charts.charts), "overview-chart")
    {
      page.SetKpis(data.totals);
      charts.InitLineChart("overview-chart", OverviewLabels(data.rows), OverviewSeries(data.rows), "overview-chart" in page.dom);
    }

    /** `loadAudience()` (js/analytics.js:88-114). */
    method LoadAudience(reply: Result<AudienceData, string>)
      requires Valid()
      modifies this, page, charts
      ensures Valid()
      ensures page.dom == LoadIn(old(page.dom), "audience", AudienceOutcome(reply))
      ensures calls == old(calls) + [Api.Audience(SiteParam(siteId))]
      ensures siteId == old(siteId) && dateRange == old(dateRange)
      ensures realtimeInterval == old(realtimeInterval) && timers == old(timers) && nextTimer == old(nextTimer)
      ensures reply.Err? ==> charts.charts == old(charts.charts) && charts.destroyed == old(charts.destroyed)
      ensures reply.Ok? ==> charts.destroyed == old(charts.destroyed) + Prior(old(charts.charts), "device-chart")
      ensures reply.Ok? && "device-chart" in old(page.dom) ==>
        charts.charts == old(charts.charts)["device-chart" :=
          Chart(old(charts.next), DoughnutConfigOf(DeviceLabels(reply.value.devices), DeviceUsers(reply.value.devices)))]
      ensures reply.Ok? && "device-chart" !in old(page.dom) ==> charts.charts == Evicted(old(charts.charts), "device-chart")
    {
      ghost var d0 := page.dom;
      page.SetLoading("audience", true);
      ghost var d1 := page.dom;
      calls := calls + [Api.Audience(SiteParam(siteId))];
      match reply {
        case Ok(data) =>
          assert "device-chart" in d1 <==> "device-chart" in d0;
          charts.InitDoughnutChart("device-chart", DeviceLabels(data.devices), DeviceUsers(data.devices), "device-chart" in page.dom);
          page.SetHtml("country-table-body", CountryTable(data.countries));
          assert page.dom == ApplyWrites(d1, AudienceWrites(data));
        case Err(message) =>
          page.ShowSectionError("audience", message);
      }
      ghost var d2 := page.dom;
      page.SetLoading("audience", false);
      assert page.dom == LoadIn(d0, "audience", AudienceOutcome(reply));
      LoadKeepsLayout(d0, "audience", AudienceOutcome(reply));
    }

    /** `loadAcquisition()` (js/analytics.js:117-145). */
    method LoadAcquisition(reply: Result<AcquisitionData, string>)
      requires Valid()
      modifies this, page, charts
      ensures Valid()
      ensures page.dom == LoadIn(old(page.dom), "acquisition", AcquisitionOutcome(reply))
      ensures calls == old(calls) + [Api.Acquisition(SiteParam(siteId))]
      ensures siteId == old(siteId) && dateRange == old(dateRange)
      ensures realtimeInterval == old(realtimeInterval) && timers == old(timers) && nextTimer == old(nextTimer)
      ensures reply.Err? ==> charts.charts == old(charts.charts) && charts.destroyed == old(charts.destroyed)
      ensures reply.Ok? ==> charts.destroyed == old(charts.destroyed) + Prior(old(charts.charts), "acquisition-chart")
      ensures reply.Ok? && "acquisition-chart" in old(page.dom) ==>
        charts.charts == old(charts.charts)["acquisition-chart" :=
          Chart(old(charts.next), BarConfigOf(ChannelLabels(reply.value.channels), ChannelSeries(reply.value.channels), true))]
      ensures reply.Ok? && "acquisition-chart" !in old(page.dom) ==> charts.charts == Evicted(old(charts.charts), "acquisition-chart")
    {
      ghost var d0 := page.dom;
      page.SetLoading("acquisition", true);
      ghost var d1 := page.dom;
      calls := calls + [Api.Acquisition(SiteParam(siteId))];
      match reply {
        case Ok(data) =>
          assert "acquisition-chart" in d1 <==> "acquisition-chart" in d0;
          charts.InitBarChart("acquisition-chart", ChannelLabels(data.channels), ChannelSeries(data.channels),
            "acquisition-chart" in page.dom, true);
          page.SetHtml("acq-table-body", ChannelTable(data.channels));
          assert page.dom == ApplyWrites(d1, AcquisitionWrites(data));
        case Err(message) =>
          page.ShowSectionError("acquisition", message);
      }
      page.SetLoading("acquisition", false);
      assert page.dom == LoadIn(d0, "acquisition", AcquisitionOutcome(reply));
      LoadKeepsLayout(d0, "acquisition", AcquisitionOutcome(reply));
    }

    /** `loadBehavior()` (js/analytics.js:148-177). */
    method LoadBehavior(reply: Result<BehaviorData, string>)
      requires Valid()
      modifies this, page, charts
      ensures Valid()
      ensures page.dom == LoadIn(old(page.dom), "behavior", BehaviorOutcome(reply))
      ensures calls == old(calls) + [Api.Behavior(SiteParam(siteId))]
      ensures siteId == old(siteId) && dateRange == old(dateRange)
      ensures realtimeInterval == old(realtimeInterval) && timers == old(timers) && nextTimer == old(nextTimer)
      ensures reply.Err? ==> charts.charts == old(charts.charts) && charts.destroyed == old(charts.destroyed)
      ensures reply.Ok? ==> charts.destroyed == old(charts.destroyed) + Prior(old(charts.charts), "events-chart")
      ensures reply.Ok? && "events-chart" in old(page.dom) ==>
        charts.charts == old(charts.charts)["events-chart" :=
          Chart(old(charts.next), BarConfigOf(EventLabels(reply.value.events), EventSeries(reply.value.events), false))]
      ensures reply.Ok? && "events-chart" !in old(page.dom) ==> charts.charts == Evicted(old(charts.charts), "events-chart")
    {
      ghost var d0 := page.dom;
      page.SetLoading("behavior", true);
      ghost var d1 := page.dom;
      calls := calls + [Api.Behavior(SiteParam(siteId))];
      match reply {
        case Ok(data) =>
          assert "events-chart" in d1 <==> "events-chart" in d0;
          charts.InitBarChart("events-chart", EventLabels(data.events), EventSeries(data.events),
            "events-chart" in page.dom, false);
          page.SetHtml("pages-table-body", PageTable(data.pages));
          assert page.dom == ApplyWrites(d1, BehaviorWrites(data));
        case Err(message) =>
          page.ShowSectionError("behavior", message);
      }
      page.SetLoading("behavior", false);
      assert page.dom == LoadIn(d0, "behavior", BehaviorOutcome(reply));
      LoadKeepsLayout(d0, "behavior", BehaviorOutcome(reply));
    }

    /** `fetchRealtimeData()` (js/analytics.js:59-82); `clock` is `new Date().toLocaleTimeString()`. */
    method FetchRealtimeData(reply: Result<RealtimeData, string>, clock: string)
      requires Valid()
      modifies this, page
      ensures Valid()
      ensures page.dom == RealtimeIn(old(page.dom), reply, clock)
      ensures calls == old(calls) + [Api.Realtime(SiteParam(siteId))]
      ensures siteId == old(siteId) && dateRange == old(dateRange)
      ensures realtimeInterval == old(realtimeInterval) && timers == old(timers) && nextTimer == old(nextTimer)
    {
      calls := calls + [Api.Realtime(SiteParam(siteId))];
      match reply {
        case Ok(data) =>
          ghost var d := page.dom;
          page.SetText("rt-count", data.totalUsers);
          page.SetText("rt-updated", "Updated " + clock);
          page.SetHtml("rt-pages-list", ActivePagesList(data.pages));
          assert page.dom == ApplyWrites(d, RealtimeWrites(data, clock)) by {
            ApplyWritesThree(d, RealtimeWrites(data, clock));
          }
          RealtimeSuccess(d, data, clock);
        case Err(message) =>
          RealtimeFailure(page.dom, message, clock);
          page.SetText("rt-count", NoValue);
      }
    }

    /** `clearInterval(realtimeInterval)`: clearing `null` does nothing. */
    method ClearRealtimeInterval()
      requires Valid()
      modifies this
      ensures Valid()
      ensures timers == {}
      ensures siteId == old(siteId) && dateRange == old(dateRange) && calls == old(calls)
      ensures realtimeInterval == old(realtimeInterval) && nextTimer == old(nextTimer)
    {
      if realtimeInterval.Some? {
        timers := timers - {realtimeInterval.value};
      }
    }

    /**
     * `loadRealtime()` (js/analytics.js:53-57): the old interval is cleared
     * before the first fetch and a new one is armed after it, so one interval
     * is armed afterwards, however often the section is entered.
     */
    method LoadRealtime(reply: Result<RealtimeData, string>, clock: string)
      requires Valid()
      modifies this, page
      ensures Valid()
      ensures page.dom == RealtimeIn(old(page.dom), reply, clock)
      ensures calls == old(calls) + [Api.Realtime(SiteParam(siteId))]
      ensures realtimeInterval == Some(old(nextTimer)) && timers == {old(nextTimer)} && nextTimer == old(nextTimer) + 1
      ensures old(realtimeInterval).Some? ==> old(realtimeInterval).value !in timers
      ensures siteId == old(siteId) && dateRange == old(dateRange)
    {
      ClearRealtimeInterval();
      FetchRealtimeData(reply, clock);
      var handle := nextTimer;
      nextTimer := nextTimer + 1;
      timers := timers + {handle};
      realtimeInterval := Some(handle);
    }

    /** `stopRealtime()` (js/analytics.js:85): no interval stays armed; the handle itself is kept. */
    method StopRealtime()
      requires Valid()
      modifies this
      ensures Valid()
      ensures timers == {}
      ensures realtimeInterval == old(realtimeInterval) && nextTimer == old(nextTimer)
      ensures siteId == old(siteId) && dateRange == old(dateRange) && calls == old(calls)
    {
      ClearRealtimeInterval();
    }

    /** An armed interval fires: `fetchRealtimeData` runs with the site id current at that time. */
    method Tick(timer: nat, reply: Result<RealtimeData, string>, clock: string)
      requires Valid() && timer in timers
      modifies this, page
      ensures Valid()
      ensures realtimeInterval == Some(timer)
      ensures page.dom == RealtimeIn(old(page.dom), reply, clock)
      ensures calls == old(calls) + [Api.Realtime(SiteParam(siteId))]
      ensures realtimeInterval == old(realtimeInterval) && timers == old(timers) && nextTimer == old(nextTimer)
    {
      FetchRealtimeData(reply, clock);
    }

    /** `loadSection(sectionName)` (js/analytics.js:12-21). */
    method LoadSection(name: string, replies: Replies, clock: string)
      requires Valid()
      modifies this, page, charts
      ensures Valid()
      ensures siteId == old(siteId) && dateRange == old(dateRange)
      ensures Dispatch(old(siteId), name).None? ==>
        && page.dom == old(page.dom) && calls == old(calls)
        && realtimeInterval == old(realtimeInterval) && timers == old(timers) && nextTimer == old(nextTimer)
        && charts.charts == old(charts.charts) && charts.destroyed == old(charts.destroyed)
      ensures Dispatch(old(siteId), name) == Some(OverviewSection) ==>
        page.dom == LoadIn(old(page.dom), "overview", OverviewOutcome(replies.overview))
        && calls == old(calls) + [Api.Overview(SiteParam(siteId), dateRange, "today")]
      ensures Dispatch(old(siteId), name) == Some(AudienceSection) ==>
        page.dom == LoadIn(old(page.dom), "audience", AudienceOutcome(replies.audience))
        && calls == old(calls) + [Api.Audience(SiteParam(siteId))]
      ensures Dispatch(old(siteId), name) == Some(AcquisitionSection) ==>
        page.dom == LoadIn(old(page.dom), "acquisition", AcquisitionOutcome(replies.acquisition))
        && calls == old(calls) + [Api.Acquisition(SiteParam(siteId))]
      ensures Dispatch(old(siteId), name) == Some(BehaviorSection) ==>
        page.dom == LoadIn(old(page.dom), "behavior", BehaviorOutcome(replies.behavior))
        && calls == old(calls) + [Api.Behavior(SiteParam(siteId))]
      ensures Dispatch(old(siteId), name) == Some(RealtimeSection) ==>
        page.dom == RealtimeIn(old(page.dom), replies.realtime, clock)
        && calls == old(calls) + [Api.Realtime(SiteParam(siteId))]
        && realtimeInterval.Some? && timers == {realtimeInterval.value}
      ensures Dispatch(old(siteId), name) == Some(RealtimeSection) ==>
        realtimeInterval == Some(old(nextTimer)) && nextTimer == old(nextTimer) + 1
      ensures Dispatch(old(siteId), name) != Some(RealtimeSection) ==>
        realtimeInterval == old(realtimeInterval) && timers == old(timers) && nextTimer == old(nextTimer)
      ensures !DrawsChart(Dispatch(old(siteId), name), replies) ==>
        charts.charts == old(charts.charts) && charts.destroyed == old(charts.destroyed)
      ensures Dispatch(old(siteId), name) == Some(OverviewSection) && replies.overview.Ok? ==>
        var rows := replies.overview.value.rows;
        Redrawn(old(charts.charts), old(charts.destroyed), charts.charts, charts.destroyed, "overview-chart",
          "overview-chart" in old(page.dom), Chart(old(charts.next), LineConfigOf(OverviewLabels(rows), OverviewSeries(rows))))
      ensures Dispatch(old(siteId), name) == Some(AudienceSection) && replies.audience.Ok? ==>
        var devices := replies.audience.value.devices;
        Redrawn(old(charts.charts), old(charts.destroyed), charts.charts, charts.destroyed, "device-chart",
          "device-chart" in old(page.dom), Chart(old(charts.next), DoughnutConfigOf(DeviceLabels(devices), DeviceUsers(devices))))
      ensures Dispatch(old(siteId), name) == Some(AcquisitionSection) && replies.acquisition.Ok? ==>
        var channels := replies.acquisition.value.channels;
        Redrawn(old(charts.charts), old(charts.destroyed), charts.charts, charts.destroyed, "acquisition-chart",
          "acquisition-chart" in old(page.dom), Chart(old(charts.next), BarConfigOf(ChannelLabels(channels), ChannelSeries(channels), true)))
      ensures Dispatch(old(siteId), name) == Some(BehaviorSection) && replies.behavior.Ok? ==>
        var events := replies.behavior.value.events;
        Redrawn(old(charts.charts), old(charts.destroyed), charts.charts, charts.destroyed, "events-chart",
          "events-chart" in old(page.dom), Chart(old(charts.next), BarConfigOf(EventLabels(events), EventSeries(events), false)))
    {
      match Dispatch(siteId, name) {
        case None =>
        case Some(OverviewSection) => LoadOverview(replies.overview);
        case Some(RealtimeSection) => LoadRealtime(replies.realtime, clock);
        case Some(AudienceSection) => LoadAudience(replies.audience);
        case Some(AcquisitionSection) => LoadAcquisition(replies.acquisition);
        case Some(BehaviorSection) => LoadBehavior(replies.behavior);
      }
    }
  }

  /** Six writes made one after the other are the writes of the list. */
  lemma ApplyWritesSix(d: Dom, ws: seq<Write>)
    requires |ws| == 6
    ensures ApplyWrites(d, ws) ==
      WriteIn(WriteIn(WriteIn(WriteIn(WriteIn(WriteIn(d, ws[0]), ws[1]), ws[2]), ws[3]), ws[4]), ws[5])
  {
    var d1 := WriteIn(d, ws[0]);
    var d2 := WriteIn(d1, ws[1]);
    var d3 := WriteIn(d2, ws[2]);
    ApplyWritesThree(d3, ws[3..]);
    assert ApplyWrites(d3, ws[3..]) == WriteIn(WriteIn(WriteIn(d3, ws[3]), ws[4]), ws[5]);
    assert ApplyWrites(d, ws) == ApplyWrites(d1, ws[1..]);
    assert ws[1..][1..] == ws[2..] && ws[2..][1..] == ws[3..];
    assert ApplyWrites(d1, ws[1..]) == ApplyWrites(d2, ws[2..]);
    assert ApplyWrites(d2, ws[2..]) == ApplyWrites(d3, ws[3..]);
  }

  /** Three writes made one after the other are the writes of the list. */
  lemma ApplyWritesThree(d: Dom, ws: seq<Write>)
    requires |ws| == 3
    ensures ApplyWrites(d, ws) == WriteIn(WriteIn(WriteIn(d, ws[0]), ws[1]), ws[2])
  {
    var d1 := WriteIn(d, ws[0]);
    var d2 := WriteIn(d1, ws[1]);
    var d3 := WriteIn(d2, ws[2]);
    assert ws[1..][1..] == ws[2..] && ws[2..][1..] == [];
    assert ApplyWrites(d3, []) == d3;
    assert ApplyWrites(d2, ws[2..]) == d3;
    assert ApplyWrites(d1, ws[1..]) == ApplyWrites(d2, ws[2..]);
  }

  /** Every section load keeps the page's layout. */
  lemma LoadKeepsLayout(dom: Dom, section: string, outcome: Result<seq<Write>, string>)
    requires IsLoaded(section) && Layout(dom)
    requires outcome.Ok? ==> OutsideRegions(outcome.value)
    ensures Layout(LoadIn(dom, section, outcome))
  {
    if outcome.Ok? {
      LoadSuccess(dom, section, outcome.value);
    }
  }
}
