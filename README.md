# Analytics dashboard — a verified model of its core

The dashboard is a browser page. It fetches report data from a backend API and draws it as KPI cards, tables and Chart.js charts in five sections: overview, real-time, audience, acquisition and behavior. This project models the parts of it whose behaviour can be stated. Each part is proved against a partner: an inverse, a reference definition or a preserved invariant.

- **Display helpers.** `escapeHtml` (`Escape`), `formatDate`, `formatNumber`, `formatDuration` and the `parseInt` they rely on (`Formatters`). Decimal numerals, `slice` and `split` are in `Text`.
- **The chart registry** (`Charts`). `_charts` is a class. It destroys a canvas's previous chart before it stores a new one. The module also covers dataset styling and the legend and index-axis options.
- **`apiFetch` and the `api` endpoint table** (`Api`). These cover request shaping, response classification, routes and query strings.
- **The page** (`Render`). The document is a map from element id to element, and the section loaders' writes are functions on it. The tables and their "No data" rows are here too.
- **The mutable state of the analytics page** (`Analytics`):
  - `currentSiteId`, `currentDateRange` and `realtimeInterval`, plus the set of armed intervals, in class `Dashboard`;
  - the document, in class `Page`;
  - `loadSection`, the four loaders, and `loadRealtime`/`fetchRealtimeData`/`stopRealtime`.

Each `await` is one atomic step. The answer of the API is an input, `Ok(payload)` or `Err(err.message)`. The clock reading of the real-time view is an input string. The deployment constant `API_BASE` is a parameter.

## Model

| member | source | states |
|---|---|---|
| Escape.EscapeHtmlIsPerChar | js/analytics.js:185-191 | the four replace passes, `&` first, equal escaping each character once: no reference made by a later pass is escaped again |
| Escape.EscapeHtmlSafe | js/analytics.js:185-191 | the output holds no raw `<`, `>` or `"`, and every `&` in it begins `&amp;`, `&lt;`, `&gt;` or `&quot;` |
| Escape.EscapeHtmlPlain | js/analytics.js:185-191 | text with none of the four characters comes back unchanged |
| Escape.UnescapeEscapeHtml | js/analytics.js:185-191 | decoding the four references gives the original text back, so escaping loses nothing |
| Escape.EscapeHtmlAppend | js/analytics.js:185-191 | escaping distributes over concatenation |
| Formatters.FormatDateOfString | js/charts.js:166-169 | for a string of 8 or more characters the result is characters 4-5, `/`, characters 6-7 (5 characters) |
| Formatters.FormatDateShort | js/charts.js:166-169 | `slice` clamps: a string of at most 4 characters gives just `/` |
| Formatters.FormatDateOfNumber | js/charts.js:166-169 | for the number YYYYMMDD the result is the two-digit month `(n div 100) mod 100`, `/`, the two-digit day `n mod 100` |
| Formatters.FormatDateExample | js/charts.js:166-169 | 20240115 gives `01/15` |
| Formatters.FormatNumberSuffix | js/charts.js:171-175 | the suffix is `M` iff n ≥ 1e6, `K` iff 1e3 ≤ n < 1e6; below 1e3 the result is `String(n)` |
| Formatters.FormatNumberReadBack | js/charts.js:171-175 | every display reads back as a number: below 1e3 the number itself, else within half a displayed decimal (unit/20) of it |
| Formatters.FormatNumberExampleBoundary | js/charts.js:171-175 | 999999 gives `1000.0K`: rounding carries into a fifth digit instead of switching to `M` |
| Formatters.FormatNumberExampleMillions | js/charts.js:172 | 2500000 gives `2.5M` |
| Formatters.FormatNumberExampleThousands | js/charts.js:173 | 1500 gives `1.5K` |
| Formatters.JsRem | js/charts.js:180 | JavaScript `%`, which truncates: `a - r` is a multiple of b, and the remainder lies in [0, b) for a ≥ 0 and in (-b, 0] for a < 0 |
| Formatters.FormatDurationRoundTrip | js/charts.js:177-182 | for s ≥ 0: `rem < 60` and `m*60 + rem = s`; the text is `{m}m {rem}s` when m > 0, else `{rem}s`; reading it back gives s |
| Formatters.FormatDurationNegative | js/charts.js:177-182 | a negative s shows only its signed remainder, because the floored minutes are not positive |
| Formatters.FormatDurationExampleMinutes | js/charts.js:177-182 | 125 gives `2m 5s` |
| Formatters.FormatDurationExampleSeconds | js/charts.js:177-182 | 45 gives `45s` |
| Formatters.ParseIntDecimal | js/analytics.js:36 | `parseInt` reads back the numeral of any integer, negative ones included, whatever non-digit follows it |
| Formatters.ParseIntUnsigned | js/analytics.js:36 | a run of digits followed by a non-digit parses as the number of the digits |
| Formatters.ParseIntNegative | js/analytics.js:36 | a `-` then a run of digits parses as the negated number |
| Formatters.ParseIntExampleNaN | js/analytics.js:36 | text without a leading digit is `NaN` (`None`), which the loader's `or 0` default turns into 0 |
| Charts.StyleDatasets | js/charts.js:41-55 | styled datasets keep count, order, label and data; dataset i gets `PALETTE[i mod 7]` |
| Charts.UnstyleStyle | js/charts.js:127-138 | dropping the colours from the styled datasets gives the input datasets back |
| Charts.PaletteCycles | js/charts.js:9-19 | colours repeat with period 7 and neighbouring datasets get different colours |
| Charts.LineConfigOf | js/charts.js:57-82 | the line chart keeps labels and datasets, and shows a legend iff there is more than one dataset |
| Charts.DoughnutConfigOf | js/charts.js:91-118 | the doughnut chart keeps labels and data |
| Charts.BarConfigOf | js/charts.js:140-162 | the bar chart keeps labels and datasets; legend iff more than one dataset; `indexAxis` is `y` iff `horizontal` |
| Charts.BarDefaultVertical | js/charts.js:122 | `horizontal` defaults to false, so the default index axis is `x` |
| Charts.Evicted | js/charts.js:31 | after `delete _charts[id]` there is no entry for id and every other entry is unchanged |
| Charts.Prior | js/charts.js:31 | what `destroyChart` destroys: the stored chart for id if there is one, else nothing |
| Charts.Registry.constructor | js/charts.js:29 | the registry starts empty with nothing destroyed |
| Charts.Registry.DestroyChart | js/charts.js:30-32 | the entry for id is gone and other ids are untouched; the prior chart, if any, is destroyed once; the registry invariant holds (live handles distinct, none destroyed, none destroyed twice) |
| Charts.Registry.Init | js/charts.js:36-38 | the prior chart is destroyed first; with the canvas present exactly one fresh chart is stored; without it no entry is left |
| Charts.Registry.InitLineChart | js/charts.js:35-83 | `Registry.Init` with the line configuration: a fresh undestroyed chart for the canvas, the prior one destroyed |
| Charts.Registry.InitDoughnutChart | js/charts.js:86-119 | `Registry.Init` with the doughnut configuration |
| Charts.Registry.InitBarChart | js/charts.js:122-163 | `Registry.Init` with the bar configuration |
| Api.SentBody | js/api.js:16 | the body is sent iff `options.body` is truthy, and then it is that body |
| Api.RequestAsWritten | js/api.js:11-17 | URL is `API_BASE + path` verbatim; method as given; credentials `include` unless given; the body is passed through as given; caller headers replace the merged headers wholesale |
| Api.HeadersDropContentType | js/api.js:14-15 | with caller headers the request has no `Content-Type` |
| Api.BuildRequest | js/api.js:12-17 | the corrected init object: `Content-Type` always present (JSON unless the caller sets it), caller headers kept, no other headers; the body is passed through as given |
| Api.BuildRequestAsWritten | js/api.js:12-17 | when no headers are passed the corrected and as-written requests are equal |
| Api.ErrorMessage | js/api.js:22 | the message is `String(data.error)` when that field is truthy, else `Request failed (status)` |
| Api.NullBodyLosesStatus | js/api.js:19-24 | a 500 with body `null` rejects with a TypeError message and no status |
| Api.Classify | js/api.js:19-26 | Ok iff a 2xx response, returning the parsed body unchanged (an unparsable body is `{}`); every non-2xx response throws with its status and the body's `error` field as message, or the generic message when the body has none, is unparsable or is `null` |
| Api.ClassifyAsWrittenAgrees | js/api.js:19-26 | both classifications agree on every response except a failing `null` body |
| Api.Route | js/api.js:29-53 | register/login/logout/addWebsite use POST, deleteWebsite DELETE, the others the default method; only register/login/addWebsite send a body; no route passes headers or credentials |
| Api.SendAsWritten | js/api.js:29-53 | no endpoint passes headers, so every request is the one as written, with credentials `include` and JSON headers |
| Api.DeleteWebsiteTarget | js/api.js:39 | deleteWebsite sends DELETE to a path whose last segment is the id |
| Api.AnalyticsQuery | js/api.js:47-52 | realtime/audience/acquisition/behavior paths carry exactly the query `siteId=<id>` |
| Api.OverviewQuery | js/api.js:48-49 | the overview path carries `siteId`, `startDate`, `endDate`, in that order |
| Api.SiteIdInjectsParameter | js/api.js:47 | values are interpolated unencoded: a site id `v1&siteId=v2` reaches the server as two `siteId` parameters |
| Render.Replace | js/analytics.js:182 | assigning content to an element changes only that element and removes the elements lying inside it |
| Render.ReplacePlain | js/analytics.js:180-183 | outside the content regions an assignment changes that one element only |
| Render.SetTextIn | js/analytics.js:180-183 | `setText` sets the element's text and keeps its display; the element's former children go, every other element is unchanged and nothing is added; a missing element changes nothing |
| Render.SetLoadingIn | js/analytics.js:193-198 | loading shows the indicator (`flex`) and hides the content (`none`), and the reverse; no other element and no content changes |
| Render.ShowSectionErrorIn | js/analytics.js:200-212 | the content region is shown and holds the panel with the escaped message; the elements inside it are gone; all else is unchanged |
| Render.ApplyWritesPlain | js/analytics.js:180-183 | writes outside the regions keep every element and display; elements no write aims at are unchanged; an element written once holds what was written |
| Render.LoadEndsShown | js/analytics.js:193-198 | after a load, on success or failure, the content region is shown and the loading indicator is hidden |
| Render.LoadFailure | js/analytics.js:200-212 | on a failed fetch the content region holds the error panel with the escaped (HTML-safe) message, and every other element except the indicator is unchanged |
| Render.LoadSuccess | js/analytics.js:24-50 | on success every element stays; an element written once holds its write; an element no write aims at is unchanged apart from the two displays |
| Render.ErrorPersists | js/analytics.js:200-212 | the error panel replaced the section's markup, so a later successful load of that section still shows the panel |
| Render.TextOrDash | js/analytics.js:35 | `bounceRate` or `—`: the dash exactly when the value is missing or empty (or is the dash), else the value |
| Render.KpiWrites | js/analytics.js:31-36 | the six KPI writes, in order, with their formatter and default |
| Render.KpiWritesPlain | js/analytics.js:31-36 | each KPI element is written once and none is a content region |
| Render.KpiDefaults | js/analytics.js:31-36 | missing sessions, users, new users and page views each show `0`, a missing bounce rate `—`, a missing duration `0s` |
| Render.OverviewLabels | js/analytics.js:39 | one label per row, in row order: `formatDate(row.date)` |
| Render.OverviewSeries | js/analytics.js:40-45 | two datasets, `Sessions` and `Users`, each as long as the rows and in row order |
| Render.OverviewChartReadBack | js/analytics.js:39-45 | label i reads back as the month/day of row i; the series read back as row i's sessions and users |
| Render.DeviceChartReadBack | js/analytics.js:93-97 | the device doughnut has one label and one user count per device, in order |
| Render.ChannelChartReadBack | js/analytics.js:122-127 | the horizontal channel bar chart has one label per channel and a single `Sessions` dataset in the first palette colour holding each channel's sessions, in order |
| Render.EventChartReadBack | js/analytics.js:153-158 | the vertical events bar chart has one label per event and a single `Event Count` dataset in the first palette colour holding each event's count, in order |
| Render.SectionChartOptions | js/analytics.js:122-158 | the channels chart is horizontal and the events chart vertical, neither with a legend; the overview chart (two series) has one |
| Render.CountryTable | js/analytics.js:101-108 | no countries iff the single `No data` row with colspan 4; else one row per country |
| Render.ChannelTable | js/analytics.js:131-139 | no channels iff the single `No data` row with colspan 5; else one row per channel |
| Render.PageTable | js/analytics.js:162-171 | no pages iff the single `No data` row with colspan 6; else one row per page |
| Render.ActivePagesList | js/analytics.js:67-78 | no active pages iff the single `No active pages` row with colspan 2; else one row per page |
| Render.CountryTableReadBack | js/analytics.js:101-107 | row i has rank i+1 and the country's name, escaped (HTML-safe, decodes back), then its formatted users and sessions |
| Render.ChannelTableReadBack | js/analytics.js:131-138 | row i holds channel i, escaped, its formatted numbers and its raw bounce rate |
| Render.PageTableReadBack | js/analytics.js:162-170 | row i has rank i+1 and path i, escaped in both the cell and the `title`, the formatted views and users, then the raw duration and bounce rate |
| Render.ActivePagesReadBack | js/analytics.js:71-78 | row i holds page i, escaped, and its user count |
| Render.RawBounceRateCell | js/analytics.js:136 | the bounce-rate cell is not escaped, so a `<` in it reaches the page |
| Render.TableWritesPlain | js/analytics.js:99-172 | each table body is written once and none is a content region |
| Render.RealtimeFailure | js/analytics.js:79-81 | a failed poll sets `rt-count` to `—` and changes nothing else |
| Render.RealtimeSuccess | js/analytics.js:61-78 | a successful poll shows the count, `Updated <time>` and the page list, and keeps every other element |
| Analytics.Dispatch | js/analytics.js:12-21 | a loader runs only with a site selected, and only the loader whose name was given; each of the five names runs its loader |
| Analytics.DispatchName | js/analytics.js:14-20 | each section's own name selects exactly that section |
| Analytics.DispatchUnselected | js/analytics.js:13 | with no site (or an empty id) nothing runs, whatever the name |
| Analytics.Page.SetText | js/analytics.js:180-183 | the document becomes `SetTextIn` of the old one |
| Analytics.Page.SetHtml | js/analytics.js:99-101 | `innerHTML` of a present element is replaced; a missing one changes nothing |
| Analytics.Page.SetKpis | js/analytics.js:31-36 | the six `setText` calls apply the KPI writes and keep every element |
| Analytics.Page.SetLoading | js/analytics.js:193-198 | the document becomes `SetLoadingIn` of the old one |
| Analytics.Page.ShowSectionError | js/analytics.js:200-212 | the document becomes `ShowSectionErrorIn` of the old one |
| Analytics.Dashboard.constructor | js/analytics.js:6-8 | no site, range `7daysAgo`, no interval, no armed timer |
| Analytics.Dashboard.LoadOverview | js/analytics.js:24-50 | the page becomes `LoadIn` of the overview outcome; one overview call with the current site, the range and `today`; on success the overview chart is replaced; the state invariant holds |
| Analytics.Dashboard.ShowOverview | js/analytics.js:30-45 | the KPI writes, then the line chart of the rows' labels and series in the registry |
| Analytics.Dashboard.LoadAudience | js/analytics.js:88-114 | the page becomes `LoadIn` of the audience outcome; on success the device doughnut chart is replaced |
| Analytics.Dashboard.LoadAcquisition | js/analytics.js:117-145 | the page becomes `LoadIn` of the acquisition outcome; on success the horizontal channels chart is replaced |
| Analytics.Dashboard.LoadBehavior | js/analytics.js:148-177 | the page becomes `LoadIn` of the behavior outcome; on success the vertical events chart is replaced |
| Analytics.Dashboard.FetchRealtimeData | js/analytics.js:59-82 | one realtime call; the page becomes `RealtimeIn` of the reply; timers untouched |
| Analytics.Dashboard.ClearRealtimeInterval | js/analytics.js:54 | no interval stays armed; the handle variable is kept |
| Analytics.Dashboard.LoadRealtime | js/analytics.js:53-57 | the old interval is cleared and exactly one new one is armed and stored, however often it runs |
| Analytics.Dashboard.StopRealtime | js/analytics.js:85 | no interval stays armed |
| Analytics.Dashboard.Tick | js/analytics.js:56 | only the stored interval can fire; a tick fetches with the current site id and keeps the timers |
| Analytics.Dashboard.LoadSection | js/analytics.js:12-21 | without a site or with an unknown name nothing changes at all; otherwise the named loader's page, call and chart-registry effect, a new polling timer only for `realtime`, and the registry untouched unless a chart section's fetch succeeded |
| Analytics.LoadKeepsLayout | js/analytics.js:24-50 | a load keeps the document's layout (regions hold only plain elements) |

## Left out

- Floating point: numbers are integers. Non-integer totals or durations are not modelled.
- Formatters.Tenths: `toFixed(1)` rounds the binary double nearest to `n / unit`. The model rounds the exact quotient to tenths, ties up, so a display may differ in the last digit where the double lies just below a tie.
- Formatters.FormatDuration: takes an integer. The inner `parseInt(seconds)` of js/charts.js:178 is the identity on integers below 10^21 in magnitude (larger ones print in exponent form, which `parseInt` cuts at the first non-digit); `NaN` cannot reach it from the overview loader, which applies `|| 0` first.
- Formatters.ParseInt: only base ten and ASCII white space. Hexadecimal `0x` prefixes, Unicode spaces and numbers beyond 2^53 are not modelled.
- Chart.js: the library itself is not modelled. That covers `Chart.defaults`, `gradientFill`, the canvas context, and every option other than the legend and the index axis. A chart is a handle plus its configuration, and `destroy()` is recorded as a list of destroyed handles.
- The wall clock and locale: `new Date().toLocaleTimeString()` is the input `clock`.
- Async interleaving: each loader is one atomic step. The single-timer property of `loadRealtime` holds for calls in sequence. Two overlapping calls could arm two intervals, and that is not modelled.
- Network I/O: `fetch`, `res.json()` and `JSON.stringify` are not modelled. A response is its status and its parsed body. A request body is the JSON value to be serialised, and `API_BASE` is the parameter `base`.
- Payload decoding: reading fields of the payload records is not modelled. A payload whose shape makes a loader throw part-way is folded into the `Err` reply. A section then shows only the panel, never the writes made before the throw.
- Page markup: the exact HTML of rows, panels and the SVG icon is not modelled. A row is its cell texts, and the panel is its escaped message.
- The document: it is flat, with one level of nesting. An element lies in at most one of the four section content regions, and the regions do not nest.
- Query strings: the query reader does not percent-decode (nor turn `+` into a space), does not skip empty pairs, and leaves a `#fragment` inside the last value.
- Headers: header names are compared exactly, not case-insensitively.
- Options: an `options` key present with the value `undefined` is treated as absent.
- js/auth.js is not part of this model: it is form UI and redirects.
- `showToast`, `requireAuth` and `connectGoogle` (js/api.js:41-44, 55-75) are left out: they only touch the DOM, timers and redirects.
- Escaping of table cells: the code escapes the names and paths but not the bounce rates, durations and real-time user counts. The model follows the code (`Render.RawBounceRateCell`). A design that escapes every rendered field therefore does not hold here.
- The events table: the behavior section has no events table, only the events chart. So there is no "No data" row for events.

## Findings

| source | as written | input that shows it | evidently intended | confidence | as-written member | corrected member |
|---|---|---|---|---|---|---|
| js/api.js:14-15 | `...options` is spread after the merged `headers`, so a caller's `headers` replaces the merge and drops `Content-Type: application/json` | `apiFetch('/api/websites', { headers: { 'X-Requested-With': 'fetch' } })` | caller headers merged over the JSON content type | not executed | Api.HeadersDropContentType | Api.BuildRequest |
| js/api.js:19-24 | a failing response whose body parses to `null` makes `data.error` throw a TypeError, so the rejection has no `status` and a V8 message | status 500 with the body text `null` | every non-2xx response rejects with its status and the generic message | not executed | Api.NullBodyLosesStatus | Api.Classify |
