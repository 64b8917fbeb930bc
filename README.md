# Camel / Broadberry / Richmond Shows capture, modelled in Dafny

The core models how the audiblerva scrapers turn the calendar and
event pages of two Richmond venue site families into capture events.

- **Broadberry list page.** `parseMCamelOrBroadberryPgBrwserFn` walks the days
  and their event blocks. For each block it builds a stub: a title from the
  headliner thumbnails, de-duplicated event links, a ticket link, and a cost
  from `.eventCost`. It then appends the stub to the results. An exception ends
  the walk with one "Capture Main Page Exception" error.
- **Camel list page.** `parseMainCamelPageBrowserFn` does the same with
  headliners and supporting acts (links prefixed with the site's domain), a
  venue override for Broadberry shows, the ticket link, and the "free" and age
  markers.
- **Detail pages.** Two functions enrich the stub from its detail page:
  `parseCamelOrBroadberryDetPageBrwserFn` (Broadberry) and
  `parseRichmondShowsDetailPageBrowserFn` (Camel). Each one:
  - records a snapshot of the page;
  - checks for a container;
  - picks the first JSON-LD `Event`;
  - reads its dates, image, ticket link, venue and address, and (Camel)
    its age range and door time;
  - reads the container's venue information, start-date fallback, main
    performer, doors, cost and artist boxes, and (Camel) its promoter, share
    and calendar links and performer labels.

  A `try`/`catch` turns any exception into one "Capture Detail Page
  Exception" error. Broadberry keeps the start date only when the 7-day walk
  (a literal loop of eight day steps) accepts it.
- **Post-filter.** `removeNoDateEvents` / `removeEventsWithMissingDates` drop
  every event without a start date and log one error for each.

How the model is organised:
- **Data and state.** A capture event is a datatype value, because the page
  functions return the event they were handed. The log and the results
  object are classes whose lists the operations append to in place.
- **List pages.** Each list page is a method over those objects, proved equal
  to a specification: the scan of the per-block outcomes (`ListPass.Scan`).
- **Detail pages.** Each detail page is a chain of stage functions (`DetailPass.Step`). A method runs each stage on the
  event and the log, and is proved to leave exactly what its stage function
  says. The lemmas then state what the page does as a whole.
- **JavaScript semantics.** Where the behaviour depends on JavaScript, it is written out: `null` and
  `undefined` as `None`, truthiness, `trim`, `toLowerCase`, `split`,
  `replace`, `parseInt`, and the TypeError messages V8 gives for reading
  through `null`.

Behaviour of the code worth noting:
- **Title segments.** The list pages keep every headliner and supporter
  name in the title, repeats included: the `testExist` check before each
  push reads `performerName` off a string, which is always `undefined`, so
  it never finds a match.
- **Several containers.** The warning for more than one detail container
  sits in an `else` branch that cannot be reached. Both detail functions
  use the first container and log nothing about the others
  (`DetailFirstContainer`).
- **Missing ticket cost (Broadberry).** A missing ticket cost on the Broadberry list page is logged as an
  *error* ("No Ticket Cost: …"), and the stub gets "Free" and an amount of 0.
- **Broadberry address lines.** The Broadberry detail page appends `twitter:description` to the address
  lines whenever it is non-empty, even when the lines were already set.
- **Camel start date.** On the Camel detail page the JSON-LD stage either throws or sets
  `startDt`. The `span.value-title` fallback therefore never changes a
  page that reaches it (`CamelDetail.DetailStartDt`).
- **The 7-day walk.** The walk compares only day numbers and the month
  reached on the seventh step, so the event day must lie within the window
  and in the month the walk reaches. From 28 October the window is
  (4, 11), and an event on 30 October is dropped
  (`StartWindow.WalkOctoberExample`). In the last week of December every
  event is dropped (`StartWindow.WalkDecemberEnd`).
- **Camel door time.** The Camel detail page stores the local hours of
  `doorTime` in `doorTimeHours` and its *milliseconds* (`getMilliseconds`) in
  `doorTimeMin`. An invalid date stores NaN in both (`CamelDetail.LdFillDoors`).

## Model

| member | source | states |
|---|---|---|
| Js.TrimSpec | src/capture/camel-broadberry-helpers.ts:66 | `trim()` leaves no white space at either end and returns a slice of the input after its leading white space |
| Js.TrimIdempotent | src/capture/camel-broadberry-helpers.ts:70 | trimming twice is trimming once |
| Js.TrimUnpadded | src/capture/camel-broadberry-helpers.ts:66 | a string with no white space at either end is its own `trim()` |
| Js.IndexOfSpec | src/capture/camelHelpers.ts:128 | when `indexOf` gives -1 the pattern occurs nowhere from the start position; otherwise it occurs there (by `IndexOf`'s own contract) and at no earlier position |
| Js.RemoveFirstAtStart | src/capture/camelHelpers.ts:128 | `replace(heading, "")` on a text that starts with the heading gives the rest of the text |
| Js.SplitJoin | src/capture/camelHelpers.ts:128 | joining the parts of `split(sep)` with `sep` gives back the text |
| Js.ParseIntDecimal | src/capture/camel-broadberry-helpers.ts:126 | `parseInt` of decimal digits followed by a non-digit is the value of those digits |
| Js.ParseIntNoDigit | src/capture/camel-broadberry-helpers.ts:126 | `parseInt` of text whose first character is no digit, sign or white space is NaN |
| Capture.AddUri | src/capture/camel-broadberry-helpers.ts:73-75 | a link is appended exactly when no link with the same URI string is there; afterwards it is there, and distinct URIs stay distinct |
| Capture.AddUrisSpec | src/capture/camelHelpers.ts:333-335 | adding a run of links keeps the old ones as a prefix, keeps URIs distinct, makes every added URI present, and adds nothing else |
| Capture.ReadEachOk | src/capture/camel-broadberry-helpers.ts:63-80 | reading every item succeeds exactly when each item reads, and the results are the items' values in order |
| Capture.ReadEachFirstFailure | src/capture/camel-broadberry-helpers.ts:63-80 | a loop that reads items fails with the exception of the first item that throws |
| Capture.CaptureLog.Error | src/capture/camel-broadberry-helpers.ts:129 | `log.errorLogs.push(m)` appends `m` to the errors and changes nothing else |
| Capture.CaptureLog.Warning | src/capture/camel-broadberry-helpers.ts:244 | `log.warningLogs.push(m)` appends `m` to the warnings only |
| Capture.CaptureLog.Info | src/capture/camel-broadberry-helpers.ts:338 | `log.infoLogs.push(m)` appends `m` to the infos only |
| Capture.CaptureResults.Push | src/capture/camel-broadberry-helpers.ts:141 | `results.events.push(e)` appends `e` |
| Capture.ToIso | src/capture/camel-broadberry-helpers.ts:242 | `new Date(s).toISOString()` throws "Invalid time value" exactly when the date is invalid |
| PostFilter.RemoveDatelessEvents | src/capture/camel-broadberry-helpers.ts:14-26 | the results become the dated events, in order, and one error per removed event is appended |
| PostFilter.KeptMembers | src/capture/camel-broadberry-helpers.ts:15-25 | an event is kept exactly when it was there and has a start date |
| PostFilter.KeptOrRemoved | src/capture/camel-broadberry-helpers.ts:15-25 | every event is either kept or gives one removal error |
| PostFilter.KeptAppend | src/capture/camel-broadberry-helpers.ts:15-25 | the filter works event by event: filtering a concatenation is concatenating the filtered parts, errors included |
| PostFilter.KeptAllDated | src/capture/camel-broadberry-helpers.ts:16-24 | when every event is dated nothing is removed and nothing logged |
| PostFilter.KeptIdempotent | src/capture/camel-broadberry-helpers.ts:15-25 | filtering again removes nothing |
| StartWindow.DaysInMonthCarry | src/capture/camel-broadberry-helpers.ts:181-183 | `new Date(year, month, 0)` carries month 13 into January of the next year and month 0 into December of the year before |
| StartWindow.YearLength | src/capture/camel-broadberry-helpers.ts:181-183 | the twelve month lengths add up to 365 days, or 366 in a leap year |
| StartWindow.Walk | src/capture/camel-broadberry-helpers.ts:208-235 | the eight-turn loop leaves the ISO date when the date is valid, its day minus one is at most the day counter and its month equals the month counter after seven steps, and null otherwise (`WalkAccepts` gives this in calendar terms) |
| StartWindow.AdvanceClosedForm | src/capture/camel-broadberry-helpers.ts:217-226 | n day steps from day d move to d + n, or wrap once into the next month |
| StartWindow.WalkAccepts | src/capture/camel-broadberry-helpers.ts:209-234 | for a real today, the date is kept exactly when it is valid and either in today's month and at most eight days on (when seven days stay inside the month) or in the next month up to the same distance past the month end; it is then the ISO date |
| StartWindow.WalkDecemberEnd | src/capture/camel-broadberry-helpers.ts:219-228 | in the last week of December the walk reaches month 13 and drops every event |
| StartWindow.WalkOctoberExample | src/capture/camel-broadberry-helpers.ts:215-234 | worked example: on 28 October the window ends on (4, 11), so an event on 30 October is dropped |
| LdJson.ParseAll | src/capture/camel-broadberry-helpers.ts:196 | parsing the scripts succeeds exactly when every script parses, giving their values in order |
| LdJson.FilterEvents | src/capture/camel-broadberry-helpers.ts:198 | the `@type` filter succeeds exactly when no value is null, and keeps the Event objects in order |
| LdJson.EventsOfHead | src/capture/camel-broadberry-helpers.ts:198-200 | there is an Event object exactly when some value is typed Event, and the first one is chosen |
| LdJson.TypeListIsEvent | src/capture/camel-broadberry-helpers.ts:198 | under the loose `==` an `@type` array selects the object exactly when it is `["Event"]` |
| LdJson.SelectLdEventSpec | src/capture/camel-broadberry-helpers.ts:195-206 | the structured data is found exactly when every script parses, none is null and one is an Event; it is then the first Event |
| LdJson.SelectLdEventNone | src/capture/camel-broadberry-helpers.ts:197-205 | a page without scripts throws "Could not extract json+ld event data" |
| ListPass.Record | src/capture/camel-broadberry-helpers.ts:141-146 | one event block either appends its stub (after its cost error, if any) or logs the main-page exception and ends the pass |
| ListPass.ScanAbortedSticky | src/capture/camel-broadberry-helpers.ts:29-147 | after an exception, later blocks change nothing |
| ListPass.ScanPartial | src/capture/camel-broadberry-helpers.ts:29-147 | the first block that throws ends the walk with the stubs before it and one more error |
| ListPass.ScanAllBuilt | src/capture/camel-broadberry-helpers.ts:33-143 | when no block throws, every block's stub is appended, in order |
| ListPass.ScanEventsUrisDistinct | src/capture/camel-broadberry-helpers.ts:73-118 | stubs with distinct links give results with distinct links |
| BroadberryList.CollectHeadliners | src/capture/camel-broadberry-helpers.ts:61-80 | the thumbnail loop gives the headliners' distinct links and their names, or the first exception |
| BroadberryList.HeadlinerNext | src/capture/camel-broadberry-helpers.ts:63-80 | one more thumbnail adds its link if new and its name |
| BroadberryList.HeadlinerThrows | src/capture/camel-broadberry-helpers.ts:65-70 | a thumbnail without a link, href or title throws out of the loop |
| BroadberryList.ReadTicketLink | src/capture/camel-broadberry-helpers.ts:111-119 | no `.rhp-event-cta` or an anchor without href throws; otherwise the trimmed href, if any, is the ticket link and is added to the links unless present |
| BroadberryList.ReadCostNode | src/capture/camel-broadberry-helpers.ts:120-132 | the trimmed span text and `parseInt` of it without its first "$"; a missing node gives "Free", 0 and a "No Ticket Cost" error |
| BroadberryList.BuildStub | src/capture/camel-broadberry-helpers.ts:37-141 | one block gives the stub of `Stub` (see `StubThrows`, `StubTitle`, `StubLinks`, `StubCost`) or its exception |
| BroadberryList.ParseDay | src/capture/camel-broadberry-helpers.ts:36-142 | one day's blocks extend the results and the log as the scan of their outcomes says |
| BroadberryList.ParseListPage | src/capture/camel-broadberry-helpers.ts:28-150 | the results gain the stubs of the scan over every block of every day, and the log gains its errors |
| BroadberryList.RemoveNoDateEvents | src/capture/camel-broadberry-helpers.ts:14-26 | the post-filter, as `PostFilter.Kept` and `PostFilter.Removals` |
| BroadberryList.StubThrows | src/capture/camel-broadberry-helpers.ts:63-119 | a block throws exactly when a thumbnail is unreadable, there is no `.rhp-event-cta`, or the ticket anchor has no href |
| BroadberryList.StubTitle | src/capture/camel-broadberry-helpers.ts:61-109 | the title is every thumbnail title, trimmed, joined with " / " (duplicates kept) |
| BroadberryList.HeadlinerUris | src/capture/camel-broadberry-helpers.ts:63-75 | the headliner links are distinct, cover every thumbnail href, and are all capture sources taken from thumbnails |
| BroadberryList.TicketLinks | src/capture/camel-broadberry-helpers.ts:112-119 | the trimmed ticket href becomes the ticket link and is added to the links once, as a non-capture source |
| BroadberryList.StubLinks | src/capture/camel-broadberry-helpers.ts:60-119 | a stub's links are distinct, cover every headliner and the ticket link, and are nothing else |
| BroadberryList.StubCost | src/capture/camel-broadberry-helpers.ts:120-132 | with a cost span the raw text and the dollar amount are read; otherwise "Free", 0 and the "No Ticket Cost" error |
| BroadberryList.StubFromConfig | src/capture/camel-broadberry-helpers.ts:37-58 | a stub takes tenant, channel, venue, address and neighbourhood from the configuration, with no dates, performers or age |
| BroadberryList.DollarAmountDigits | src/capture/camel-broadberry-helpers.ts:125-126 | "$" followed by digits reads the digits' value |
| BroadberryList.DollarAmountPlain | src/capture/camel-broadberry-helpers.ts:125-126 | worked example: "$15" reads 15 |
| BroadberryList.DollarAmountWord | src/capture/camel-broadberry-helpers.ts:125-126 | worked example: "Free" reads NaN |
| BroadberryList.ListPageComplete | src/capture/camel-broadberry-helpers.ts:33-143 | when no block throws, each block's stub is appended, in order |
| BroadberryList.ListPageAborted | src/capture/camel-broadberry-helpers.ts:29-147 | the first block that throws ends the walk: the stubs before it, their cost errors and one main-page exception |
| BroadberryList.ListPageUrisDistinct | src/capture/camel-broadberry-helpers.ts:73-118 | every event the page yields has distinct links |
| CamelList.Prefixed | src/capture/camelHelpers.ts:327-329 | a non-empty href gets the domain prefix, an empty one stays empty |
| CamelList.CollectHeadliners | src/capture/camelHelpers.ts:321-339 | the headliner loop gives the distinct prefixed links and the names, or the first exception |
| CamelList.CollectSupporters | src/capture/camelHelpers.ts:350-366 | the supporter loop continues the links and names, or gives the first exception |
| CamelList.PushSupporter | src/capture/camelHelpers.ts:352-365 | one supporter link with an href reads as its act; its prefixed link joins the links unless already there and its name joins the title segments |
| CamelList.ActNext | src/capture/camelHelpers.ts:323-339 | one more act adds its link if new and its name |
| CamelList.ActThrows | src/capture/camelHelpers.ts:325-326 | an act without a link or href throws out of the loop |
| CamelList.ReadTicketLink | src/capture/camelHelpers.ts:371-377 | the raw href of `h3.ticket-link a`, if present, is the ticket link and is added to the links unless present |
| CamelList.BuildStub | src/capture/camelHelpers.ts:297-392 | one block gives the stub of `Stub` (see `StubThrows`, `StubTitle`, `StubLinks`, `StubMarkers`) or its exception |
| CamelList.FinishStub | src/capture/camelHelpers.ts:368-390 | the title, ticket link, free marker and age markers complete the stub read from the headliners and supporters |
| CamelList.ParseDay | src/capture/camelHelpers.ts:296-393 | one day's blocks extend the results and the log as the scan of their outcomes says |
| CamelList.ParseListPage | src/capture/camelHelpers.ts:290-401 | the results gain the stubs of the scan over every block of every day, and the log gains its errors |
| CamelList.RemoveEventsWithMissingDates | src/capture/camelHelpers.ts:14-25 | the post-filter, as `PostFilter.Kept` and `PostFilter.Removals` |
| CamelList.StubThrows | src/capture/camelHelpers.ts:322-366 | a block throws exactly when a headliner has no `#eventTitle` or href or a supporter has no href; a stub never logs a cost error |
| CamelList.StubTitle | src/capture/camelHelpers.ts:321-368 | the title is every headliner then every supporter name, trimmed, joined with " / " (duplicates kept) |
| CamelList.StubMarkers | src/capture/camelHelpers.ts:341-390 | "free" gives "Free" and 0; all-ages gives age 0, else over-21 gives 21; the venue stays the configured one |
| CamelList.StubFromConfig | src/capture/camelHelpers.ts:297-318 | a stub takes tenant, channel, address and neighbourhood from the configuration, with no dates, performers or promoters |
| CamelList.ActUrisGrow | src/capture/camelHelpers.ts:333-335 | the act links extend the links and keep them distinct |
| CamelList.ActUrisCover | src/capture/camelHelpers.ts:333-335 | every act's link is present afterwards |
| CamelList.ActUrisOnly | src/capture/camelHelpers.ts:333-335 | only act links are added |
| CamelList.TicketLinks | src/capture/camelHelpers.ts:371-377 | the untrimmed ticket href, possibly null, becomes the ticket link and is added once as a non-capture source |
| CamelList.StubLinks | src/capture/camelHelpers.ts:320-377 | a stub's links are distinct, cover every headliner, supporter and ticket link, and are nothing else |
| CamelList.ListPageComplete | src/capture/camelHelpers.ts:293-394 | when no block throws, each stub is appended in order and nothing is logged |
| CamelList.ListPageAborted | src/capture/camelHelpers.ts:291-398 | the first block that throws ends the walk with the stubs before it and one main-page exception |
| CamelList.ListPageUrisDistinct | src/capture/camelHelpers.ts:333-377 | every event the page yields has distinct links |
| DetailPass.Caught | src/capture/camel-broadberry-helpers.ts:447-449 | the `catch` keeps the event and adds exactly one error naming the exception and the page |
| DetailPass.ReadEndDate | src/capture/camel-broadberry-helpers.ts:241-245 | `endDate` sets the end date, throws on an invalid date, or logs its absence |
| BroadberryDetail.StartFromLd | src/capture/camel-broadberry-helpers.ts:208-239 | the start date becomes the walk's decision on `startDate`; without one the stage throws |
| BroadberryDetail.FillFromLd | src/capture/camel-broadberry-helpers.ts:247-267 | one more image (or a warning), `offers.url` and `location.name` into an empty ticket link and venue, and `[address, name]` into an empty address for a Place |
| BroadberryDetail.ReadLd | src/capture/camel-broadberry-helpers.ts:208-267 | the event, exception and log entries are those of the structured-data stages up to the first exception |
| BroadberryDetail.ReadVenueMeta | src/capture/camel-broadberry-helpers.ts:284-288 | `twitter:description` adds an address line, and a missing meta tag throws |
| BroadberryDetail.ReadStartFallback | src/capture/camel-broadberry-helpers.ts:291-299 | `.eventStDate` sets an unset start date, and an invalid one throws |
| BroadberryDetail.ReadMainPerformer | src/capture/camel-broadberry-helpers.ts:322-329 | the main performer is the trimmed `og:title`, or '' with a warning |
| BroadberryDetail.ReadDoors | src/capture/camel-broadberry-helpers.ts:332-339 | the door time from `.eventDoorStartDate span`, or an info entry |
| BroadberryDetail.ReadDetailCost | src/capture/camel-broadberry-helpers.ts:341-351 | the cost is read only when the stub has none |
| BroadberryDetail.ReadArtistBox | src/capture/camel-broadberry-helpers.ts:383-425 | a box without `#eventTitle`, or with a title but no `.eventImgBox`, throws; an empty title is a warning; otherwise one performer with its image or an info entry |
| BroadberryDetail.ReadArtists | src/capture/camel-broadberry-helpers.ts:381-426 | the loop leaves what the boxes do in order, up to the first exception |
| BroadberryDetail.ReadContainerFields | src/capture/camel-broadberry-helpers.ts:284-351 | the loop-free container stages run in source order, up to the first exception |
| BroadberryDetail.ReadContainer | src/capture/camel-broadberry-helpers.ts:275-426 | the container stages, then the artist boxes, up to the first exception |
| BroadberryDetail.EnrichPage | src/capture/camel-broadberry-helpers.ts:194-426 | structured-data selection, its stages and the container stages, up to the first exception |
| BroadberryDetail.ParseDetailPage | src/capture/camel-broadberry-helpers.ts:178-452 | the event returned and the entries logged are those of `DetailPage`, whose properties are the `Detail*` lemmas |
| BroadberryDetail.BoxStepSpec | src/capture/camel-broadberry-helpers.ts:383-425 | a box changes only the performers, throws exactly when it is unreadable, and otherwise adds its performer |
| BroadberryDetail.ArtistsFrame | src/capture/camel-broadberry-helpers.ts:381-426 | the boxes only extend the performers; each added one is primary exactly when it matches the main performer up to case |
| BroadberryDetail.ArtistsThrow | src/capture/camel-broadberry-helpers.ts:381-426 | the boxes throw exactly when one is unreadable |
| BroadberryDetail.ArtistsAdd | src/capture/camel-broadberry-helpers.ts:381-426 | the boxes only add performers, primary exactly when they match the main performer up to case, and without an exception one per titled box, named by its trimmed title |
| BroadberryDetail.ArtistsNames | src/capture/camel-broadberry-helpers.ts:381-426 | without an exception every titled box adds one performer named by its trimmed title, in order |
| BroadberryDetail.LdStagesKeep | src/capture/camel-broadberry-helpers.ts:208-267 | the structured-data stages keep what the stub had and set the start date to the walk's decision |
| BroadberryDetail.StartFallbackKeeps | src/capture/camel-broadberry-helpers.ts:291-299 | the fallback sets the start date only when it is unset, and then from `.eventStDate` |
| BroadberryDetail.ContainerStagesKeep | src/capture/camel-broadberry-helpers.ts:275-426 | the container stages keep what the stub had and the end date |
| BroadberryDetail.ContainerPerformers | src/capture/camel-broadberry-helpers.ts:381-426 | the container adds performers as `ArtistsNames` says |
| BroadberryDetail.DetailPreserves | src/capture/camel-broadberry-helpers.ts:185-449 | the page keeps links, title and channel fields, never replaces a ticket link, venue or cost, only adds performers, images and address lines, and records its text and HTML |
| BroadberryDetail.DetailNoStart | src/capture/camel-broadberry-helpers.ts:204-239 | without an Event object or its `startDate`, only the snapshot and one error are added |
| BroadberryDetail.DetailErrors | src/capture/camel-broadberry-helpers.ts:185-449 | a page logs at most one error; with no container the result is exactly the page snapshot plus the missing-container error; otherwise the error is the exception; no error means every stage ran |
| BroadberryDetail.DetailStartDt | src/capture/camel-broadberry-helpers.ts:208-299 | the walk's decision stands when it keeps the date; otherwise `.eventStDate` decides |
| BroadberryDetail.DetailPerformers | src/capture/camel-broadberry-helpers.ts:381-426 | the page keeps the performers it was given and, without an error, appends one per titled box, in order |
| BroadberryDetail.DetailFirstContainer | src/capture/camel-broadberry-helpers.ts:275 | only the first container is read |
| CamelDetail.StartFromLd | src/capture/camelHelpers.ts:77-81 | the ISO form of `startDate` becomes the start date; a missing one throws, an invalid one throws "Invalid time value" |
| CamelDetail.FillFromLd | src/capture/camelHelpers.ts:89-115 | the image, age, ticket link, venue, Place address and door time stages, in order, without an exception |
| CamelDetail.ReadPlace | src/capture/camelHelpers.ts:95-109 | the age, ticket link, venue and address steps leave `LdPlace`, whose fields `LdPlaceSpec` states |
| CamelDetail.ReadDoorTime | src/capture/camelHelpers.ts:111-115 | the door-time step leaves `LdDoorTime`, whose fields `LdFillDoors` states |
| CamelDetail.ReadLd | src/capture/camelHelpers.ts:77-115 | the event, exception and log entries are those of the structured-data stages up to the first exception |
| CamelDetail.ReadContainerHead | src/capture/camelHelpers.ts:120-140 | promoter, venue information and start-date fallback, as `ContainerHeadKeeps` states them |
| CamelDetail.ReadMainPerformer | src/capture/camelHelpers.ts:163-169 | the main performer is the trimmed headliners text, or '' with a warning |
| CamelDetail.ReadDoors | src/capture/camelHelpers.ts:172-178 | the door time from `h2.times span.doors`, or an info entry |
| CamelDetail.ReadDetailCost | src/capture/camelHelpers.ts:180-189 | the cost is read only when the stub has none |
| CamelDetail.ReadShares | src/capture/camelHelpers.ts:191-217 | each share or calendar link is read, or its absence noted |
| CamelDetail.ReadContainerMiddle | src/capture/camelHelpers.ts:163-217 | main performer, doors, cost, share and calendar links, in order, none of which throws |
| CamelDetail.ReadBoxLinks | src/capture/camelHelpers.ts:232-238 | the link loop keeps the non-anchor hrefs, or throws on a missing href |
| CamelDetail.ReadArtistBox | src/capture/camelHelpers.ts:221-261 | one artist box, as `BoxStepSpec` states it |
| CamelDetail.ReadArtists | src/capture/camelHelpers.ts:219-262 | the loop leaves what the boxes do in order, up to the first exception |
| CamelDetail.AddLabelPerformers | src/capture/camelHelpers.ts:264-278 | the label pass appends each label no performer has up to case |
| CamelDetail.ReadContainer | src/capture/camelHelpers.ts:117-278 | the container stages in source order, up to the first exception |
| CamelDetail.EnrichPage | src/capture/camelHelpers.ts:63-278 | structured-data selection, its stages and the container stages, up to the first exception |
| CamelDetail.ParseDetailPage | src/capture/camelHelpers.ts:53-288 | the event returned and the entries logged are those of `DetailPage`, whose properties are the `Detail*` lemmas |
| CamelDetail.VenueInfoLinesSpec | src/capture/camelHelpers.ts:126-129 | venue-information lines are non-empty and have no line break; the heading is removed |
| CamelDetail.BoxLinksSpec | src/capture/camelHelpers.ts:232-238 | links are read exactly when every href is there (else the `match` TypeError); they are all the non-anchor hrefs and nothing else |
| CamelDetail.BoxPerformerImages | src/capture/camelHelpers.ts:241-248 | the bio image is `bio-image-right`, else `bio-image-no-float`, else none |
| CamelDetail.BoxAddsSpec | src/capture/camelHelpers.ts:221-258 | each named box adds one performer with its trimmed name, primary exactly when it matches the main performer up to case, with no anchor links and at most one image |
| CamelDetail.BoxStepSpec | src/capture/camelHelpers.ts:221-261 | a box changes only the performers, logs no error, throws exactly when unreadable, and a nameless box is one warning |
| CamelDetail.ArtistsFrame | src/capture/camelHelpers.ts:219-262 | the boxes only extend the performers and log no error |
| CamelDetail.ArtistsThrow | src/capture/camelHelpers.ts:219-262 | the boxes throw exactly when one is unreadable |
| CamelDetail.ArtistsAdd | src/capture/camelHelpers.ts:219-262 | without an exception the boxes add exactly their performers, in order |
| CamelDetail.AddLabelsSpec | src/capture/camelHelpers.ts:264-278 | the label pass keeps every performer; each label then names one up to case; each added one is a label's performer, primary exactly for the first label; names distinct up to case stay distinct |
| CamelDetail.LdStartKeeps | src/capture/camelHelpers.ts:77-81 | the start stage keeps the stub's fields, throws without or with an invalid `startDate`, and otherwise sets the start date |
| CamelDetail.LdFillSpec | src/capture/camelHelpers.ts:89-109 | age 0 exactly for `all_ages`; a Place fills an empty address with its four lines; ticket link and venue fill only empty ones; the image is added |
| CamelDetail.LdPlaceSpec | src/capture/camelHelpers.ts:95-109 | age 0 exactly for `all_ages`; a Place fills an empty address with its four lines; ticket link and venue fill only empty ones; the images stay |
| CamelDetail.LdFillDoors | src/capture/camelHelpers.ts:111-115 | `doorTime` sets the door hours to the local hours and the door minutes to the milliseconds of that date, NaN for both when the date is invalid; without it nothing changes |
| CamelDetail.LdStagesKeep | src/capture/camelHelpers.ts:77-115 | the structured-data stages keep the stub's fields and log no error; without a readable `startDate` they throw before changing anything, and otherwise the start date is its ISO form |
| CamelDetail.ContainerHeadKeeps | src/capture/camelHelpers.ts:120-140 | one promoter per topline; venue lines only into an empty address; a start date once set is kept |
| CamelDetail.ContainerMiddleKeeps | src/capture/camelHelpers.ts:163-217 | main performer through calendar links keep the stub's fields and never throw |
| CamelDetail.ContainerStagesKeep | src/capture/camelHelpers.ts:118-278 | the container stages keep the stub's fields and the start date and log no error |
| CamelDetail.ContainerPerformers | src/capture/camelHelpers.ts:219-278 | the container keeps the performers; without an exception it adds the boxes' performers, then the missing labels |
| CamelDetail.DetailPreserves | src/capture/camelHelpers.ts:55-285 | the page keeps links, title and channel fields, never replaces a ticket link, venue, cost or address, only adds performers, images, promoters and address lines, and records its text and HTML |
| CamelDetail.DetailErrors | src/capture/camelHelpers.ts:55-285 | a page logs at most one error; with no container the result is exactly the page snapshot plus the missing-container error; otherwise the error is the exception; no error means every stage ran |
| CamelDetail.DetailNoStart | src/capture/camelHelpers.ts:73-81 | without an Event object, or with a missing or invalid `startDate`, only the snapshot and one error are added |
| CamelDetail.DetailStartDt | src/capture/camelHelpers.ts:77-140 | a readable `startDate` is the event's start date; the `span.value-title` fallback never replaces it |
| CamelDetail.DetailPerformers | src/capture/camelHelpers.ts:219-278 | the page keeps the performers it was given; without an error it appends the boxes' performers, then each label no performer has |
| CamelDetail.DetailFirstContainer | src/capture/camelHelpers.ts:118 | only the first container is read |

## Left out

- `parseCamelOrBroadberry` and `parseRichmondShows` are not modelled. They are page navigation, helper injection and `$$eval`, and always return the log and the event they hold.
- `outputLog` is not modelled: it only writes to the console. The walk's `console.log` lines are dropped for the same reason.
- The DOM is given as data: `querySelector` results are `Option` values and `querySelectorAll` results are sequences. CSS selection itself is not modelled.
- `JSON.parse` is a script that parses to a value or fails with a message. JSON syntax is not modelled.
- `new Date(s)` is the parameter `TextHelpers.parseDate`, and the clock is the parameter `Today`. Time zones and `Date` arithmetic beyond `daysInMonth` are not modelled.
- `injectedHelpers.parseTime` and `injectedHelpers.parseTicketString` are uninterpreted parameters. Their code is not part of this model.
- Commented-out code is not modelled.
- `toLowerCase` is modelled for ASCII letters only.
- LdJson.LdObject: `image` and `location.address` are strings or missing. An `image` given as an object or an array is pushed into `eventImageUris` unchanged by the code, and a non-string `address` is pushed into the address lines; the model cannot hold those values. An `@type` is a string or an array of strings; another scalar is written as a missing `@type`, since it never equals 'Event' loosely.
- Js.ParseIntDecimal: the value is an unbounded integer. JavaScript rounds a digit string beyond 2^53 to the nearest double, and the model does not.
- The `if (startDtElem)` error branches and the "more than one container" warning cannot run, so the model has no code for them.
- The log's other fields (`logDt`, `totalCapturedEvents`) are carried but never changed by the core.
