/**
 * `parseRichmondShowsDetailPageBrowserFn`: a Camel/Richmond Shows detail page
 * enriches the stub its list page made. The page is read as data (`Page`);
 * each stage of the function's `try` block is a `Step` function below, run in
 * source order by `Enrich`, and `ParseDetailPage` runs the same stages on the
 * event and the log.
 */
module CamelDetail {
  import opened Js
  import opened Capture
  import opened LdJson
  import opened DetailPass

  // ---------------------------------------------------------------------------
  // The page, as far as the function reads it

  /** An `img` with its `src` attribute. */
  datatype Img = Img(src: JsStr)

  /** One `div.artist-box-headliner` or `div.artist-box-support`: the inner
      text of `span.artist-name`, the `href` of each `ul.tfly-more li a`, the
      two bio images, and the inner text of `div.bio`. */
  datatype ArtistBox = ArtistBox(
    artistName: Option<string>,
    links: seq<JsStr>,
    bioImageRight: Option<Img>,
    bioImageNoFloat: Option<Img>,
    bio: Option<string>)

  /** The detail container: the inner text of `h2.topline-info`,
      `div.venue-info`, `.event-info .headliners`, `h2.times span.doors` and
      `.ticket-price .price-range`; the `span.value-title` start date; the
      share and calendar links; the artist boxes; and the inner text of each
      `div.event-info h1.headliners, div.event-info h2.supports` label. */
  datatype Container = Container(
    toplineInfo: Option<string>,
    venueInfo: Option<string>,
    valueTitle: Option<Attr>,
    headliners: Option<string>,
    doors: Option<string>,
    priceRange: Option<string>,
    facebookShare: Option<Attr>,
    twitterShare: Option<Attr>,
    iCal: Option<Attr>,
    gCal: Option<Attr>,
    artistBoxes: seq<ArtistBox>,
    labels: seq<string>)

  /** The document: body text and HTML, the ld+json scripts, and the
      containers the caller selected. */
  datatype Page = Page(bodyText: string, bodyHtml: string, scripts: seq<Script>, containers: seq<Container>)

  // ---------------------------------------------------------------------------
  // The structured-data stages

  /** `startDate` goes through `toISOString` and replaces `startDt`; without
      one the page fails. */
  function LdStart(ld: LdObject, ev: CaptureEvent, h: TextHelpers): Step
  {
    if Truthy(ld.startDate) then
      match ToIso(h, ld.startDate.value)
      case Fail(m) => Throw(ev, m)
      case Ok(iso) => Done(ev.(startDt := Some(iso)), NoDiag)
    else Throw(ev, NoStartDtMsg)
  }

  /** An `ageRange` with `typicalAgeRange === "all_ages"` means no minimum age. */
  function AgeRange(ld: LdObject, ev: CaptureEvent): CaptureEvent
  {
    if Truthy(ld.ageRange) && ld.typicalAgeRange == Some("all_ages") then ev.(minAge := Some(0)) else ev
  }

  /** The four lines of a Place: street, locality, region, postal code. */
  function PlaceLines(loc: Location): seq<JsStr>
  {
    [loc.streetAddress, loc.addressLocality, loc.addressRegion, loc.postalCode]
  }

  /** A Place location gives the address lines if the stub has none. */
  function PlaceAddress(ld: LdObject, ev: CaptureEvent): CaptureEvent
  {
    if |ev.venueAddressLines| == 0 && ld.location.Some? && ld.location.value.typ == Some("Place")
    then ev.(venueAddressLines := ev.venueAddressLines + PlaceLines(ld.location.value)) else ev
  }

  /** `doorTime` sets the door hours and the door minutes from the local
      hours and the milliseconds of `new Date(doorTime)`; an invalid date
      gives NaN for both. */
  function LdDoorTime(ld: LdObject, ev: CaptureEvent, h: TextHelpers): CaptureEvent
  {
    if Truthy(ld.doorTime) then
      match h.parseDate(ld.doorTime.value)
      case None => ev.(doorTimeHours := Some(NaN), doorTimeMin := Some(NaN))
      case Some(d) => ev.(doorTimeHours := Some(Num(d.hours)), doorTimeMin := Some(Num(d.millis)))
    else ev
  }

  /** The age, ticket link, venue and address stages, in that order. */
  function LdPlace(ld: LdObject, ev: CaptureEvent): CaptureEvent
  {
    PlaceAddress(ld, LocationVenue(ld, OfferTicket(ld, AgeRange(ld, ev))))
  }

  /** The image, then the age, ticket link, venue, address and door time, none of which throws. */
  function LdFill(ld: LdObject, ev: CaptureEvent, uri: string, h: TextHelpers): Step
  {
    var s := LdImage(ld, ev, uri);
    Done(LdDoorTime(ld, LdPlace(ld, s.ev), h), s.delta)
  }

  /** The structured-data part of the `try` block. */
  function LdStages(ld: LdObject, ev: CaptureEvent, uri: string, h: TextHelpers): Step
  {
    var s1 := LdStart(ld, ev, h);
    var s2 := After(s1, LdEndDate(ld, s1.ev, uri, h));
    After(s2, LdFill(ld, s2.ev, uri, h))
  }

  // ---------------------------------------------------------------------------
  // The container stages

  /** `h2.topline-info` names one more promoter. */
  function Promoter(c: Container, ev: CaptureEvent): CaptureEvent
  {
    if c.toplineInfo.Some? then ev.(promoters := ev.promoters + [PromoterInfo(c.toplineInfo.value, "", [])]) else ev
  }

  const VenueInfoHeading := "Venue Information:\n"

  /** `innerText.replace("Venue Information:\n", "").split("\n").filter(x => x)`. */
  function VenueInfoLines(text: string): seq<string>
  {
    DropEmpty(Split(RemoveFirst(text, VenueInfoHeading), '\n'))
  }

  /** Strings as address lines, which may be null elsewhere. */
  function AsLines(ss: seq<string>): (r: seq<JsStr>)
    ensures |r| == |ss| && forall i :: 0 <= i < |ss| ==> r[i] == Some(ss[i])
  {
    seq(|ss|, i requires 0 <= i < |ss| => Some(ss[i]))
  }

  /** `div.venue-info` gives the address lines if there are still none. */
  function VenueInfo(c: Container, ev: CaptureEvent): CaptureEvent
  {
    if c.venueInfo.Some? && |ev.venueAddressLines| == 0
    then ev.(venueAddressLines := ev.venueAddressLines + AsLines(VenueInfoLines(c.venueInfo.value))) else ev
  }

  const EpochIso: IsoString := "1970-01-01T00:00:00.000Z"

  /** `new Date(startDtElem.getAttribute('title')).toISOString()`; a missing
      attribute is `new Date(null)`, the epoch. */
  function TitleIso(h: TextHelpers, title: JsStr): Result<IsoString>
  {
    if title.None? then Ok(EpochIso) else ToIso(h, title.value)
  }

  /** `span.value-title` sets `startDt` when there is none; an invalid date throws. */
  function StartFallback(c: Container, ev: CaptureEvent, h: TextHelpers): Step
  {
    if c.valueTitle.Some? && ev.startDt.None? then
      match TitleIso(h, c.valueTitle.value.value)
      case Fail(m) => Throw(ev, m)
      case Ok(iso) => Done(ev.(startDt := Some(iso)), NoDiag)
    else Done(ev, NoDiag)
  }

  /** The container stages before the main performer. */
  function ContainerHead(c: Container, ev: CaptureEvent, h: TextHelpers): Step
  {
    StartFallback(c, VenueInfo(c, Promoter(c, ev)), h)
  }

  /** The trimmed text of `.event-info .headliners`, or '' when it is missing. */
  function MainName(c: Container): string
  {
    if c.headliners.Some? then Trim(c.headliners.value) else ""
  }

  /** Reading the main performer only logs its absence. */
  function MainPerformer(c: Container, uri: string): Diag
  {
    if c.headliners.Some? then NoDiag
    else WarningEntry("Expecting to find a main performer (h1.headliners.summary) for page: " + uri)
  }

  /** The door time from `h2.times span.doors`. */
  function Doors(c: Container, ev: CaptureEvent, uri: string, h: TextHelpers): Step
  {
    if c.doors.Some? then Done(WithDoors(ev, h.parseTime(Trim(c.doors.value))), NoDiag)
    else Done(ev, InfoEntry("No door info found in h2.times span.doors in div.event-detail for page: " + uri))
  }

  /** The cost from `.ticket-price .price-range`, read only when the stub has
      no cost text; it replaces the amounts. */
  function DetailCost(c: Container, ev: CaptureEvent, uri: string, h: TextHelpers): Step
  {
    if Truthy(ev.ticketCostRaw) then Done(ev, NoDiag)
    else if c.priceRange.Some? then
      var raw := Trim(c.priceRange.value);
      Done(ev.(ticketCostRaw := Some(raw), ticketCost := h.parseTicketString(raw)), NoDiag)
    else Done(ev, InfoEntry("No ticket info found in h2.times span.doors in div.event-detail for page: " + uri))
  }

  /** `elem.getAttribute("href")` when the element is there; otherwise the
      field keeps `cur` and `msg` is logged. */
  function LinkOr(elem: Option<Attr>, cur: JsStr, msg: string): (JsStr, Diag)
  {
    if elem.Some? then (elem.value.value, NoDiag) else (cur, InfoEntry(msg))
  }

  const NoFbShare := "No FB Share info found in .share-events.share-plus .share-facebook a:first-child for page: "
  const NoTwitterShare := "No Twitter Share info found in .share-events.share-plus .share-twitter a:first-child for page: "
  const NoICal := "No iCal info found in  for page: "
  const NoGCal := "No gCal info found in  for page: "

  /** The Facebook and Twitter share links and the iCal and Google Calendar links. */
  function Shares(c: Container, ev: CaptureEvent, uri: string): Step
  {
    var f := LinkOr(c.facebookShare, ev.facebookShareUri, NoFbShare + uri);
    var t := LinkOr(c.twitterShare, ev.twitterShareUri, NoTwitterShare + uri);
    var i := LinkOr(c.iCal, ev.iCalUri, NoICal + uri);
    var g := LinkOr(c.gCal, ev.gCalUri, NoGCal + uri);
    Done(ev.(facebookShareUri := f.0, twitterShareUri := t.0, iCalUri := i.0, gCalUri := g.0),
         f.1.Then(t.1).Then(i.1).Then(g.1))
  }

  /** The container stages from the main performer to the calendar links, none of which throws. */
  function ContainerMiddle(c: Container, ev: CaptureEvent, uri: string, h: TextHelpers): Step
  {
    var s1 := Done(ev, MainPerformer(c, uri));
    var s2 := After(s1, Doors(c, s1.ev, uri, h));
    var s3 := After(s2, DetailCost(c, s2.ev, uri, h));
    After(s3, Shares(c, s3.ev, uri))
  }

  predicate IsWordChar(ch: char)
  {
    'a' <= ch <= 'z' || 'A' <= ch <= 'Z' || '0' <= ch <= '9' || ch == '_'
  }

  /** `link.match(/^#\w+/)`: a link to an anchor on the same page. */
  predicate InPageAnchor(link: string)
  {
    |link| >= 2 && link[0] == '#' && IsWordChar(link[1])
  }

  /** The profile links of a box: every href that is not an in-page anchor,
      in order; a link without an href throws in `match`. */
  function BoxLinks(links: seq<JsStr>): Result<seq<string>>
  {
    if links == [] then Ok([])
    else
      match BoxLinks(links[..|links| - 1])
      case Fail(m) => Fail(m)
      case Ok(us) =>
        var l := links[|links| - 1];
        if l.None? then Fail(NullRead("match"))
        else if InPageAnchor(l.value) then Ok(us) else Ok(us + [l.value])
  }

  /** `bio-image-right`, or else `bio-image-no-float`. */
  function BioImage(box: ArtistBox): Option<Img>
  {
    if box.bioImageRight.Some? then box.bioImageRight else box.bioImageNoFloat
  }

  /** The performer a named box yields, with profile links `uris`. */
  function BoxPerformer(box: ArtistBox, name: string, main: string, uris: seq<string>): CapturePerformer
  {
    var img := BioImage(box);
    CapturePerformer(name, uris, if img.Some? then [img.value.src] else [], EqualCI(main, name),
                     if box.bio.Some? then Some(Trim(box.bio.value)) else None)
  }

  /** What a named box logs: a missing bio image, a missing bio. */
  function BoxInfos(box: ArtistBox, name: string, uri: string): Diag
  {
    var d1 := if BioImage(box).Some? then NoDiag
              else InfoEntry("No Performer image found in img.bio-image-right for " + name + " for page: " + uri);
    var d2 := if box.bio.Some? then NoDiag
              else InfoEntry("No Performer Bio found in div.bio for " + name + " for page: " + uri);
    d1.Then(d2)
  }

  /** One artist box: a box without a name is a warning and no performer; a
      profile link without an href throws. */
  function ArtistBoxStep(box: ArtistBox, main: string, ev: CaptureEvent, uri: string): Step
  {
    match box.artistName
    case None => Done(ev, WarningEntry("No Performer Name in Artist Box for page: " + uri))
    case Some(text) =>
      var name := Trim(text);
      match BoxLinks(box.links)
      case Fail(m) => Throw(ev, m)
      case Ok(us) => Done(ev.(performers := ev.performers + [BoxPerformer(box, name, main, us)]), BoxInfos(box, name, uri))
  }

  /** The artist boxes in order, up to the first that throws. */
  function Artists(boxes: seq<ArtistBox>, main: string, ev: CaptureEvent, uri: string): Step
  {
    if boxes == [] then Done(ev, NoDiag)
    else
      var s := Artists(boxes[..|boxes| - 1], main, ev, uri);
      After(s, ArtistBoxStep(boxes[|boxes| - 1], main, s.ev, uri))
  }

  /** The performer the label at index `i` stands for: primary exactly for the first label. */
  function LabelPerformer(text: string, i: int): CapturePerformer
  {
    CapturePerformer(Trim(text), [], [], i == 0, None)
  }

  /** The secondary pass: each label, in order, is appended unless a
      performer with the same name up to case is already there. */
  function AddLabels(ps: seq<CapturePerformer>, labels: seq<string>): seq<CapturePerformer>
  {
    if labels == [] then ps
    else
      var prev := AddLabels(ps, labels[..|labels| - 1]);
      var p := LabelPerformer(labels[|labels| - 1], |labels| - 1);
      if HasPerformerCI(prev, p.performerName) then prev else prev + [p]
  }

  /** The container part of the `try` block. */
  function ContainerStages(c: Container, ev: CaptureEvent, uri: string, h: TextHelpers): Step
  {
    var s1 := ContainerHead(c, ev, h);
    var s2 := After(s1, ContainerMiddle(c, s1.ev, uri, h));
    var s3 := After(s2, Artists(c.artistBoxes, MainName(c), s2.ev, uri));
    After(s3, Done(s3.ev.(performers := AddLabels(s3.ev.performers, c.labels)), NoDiag))
  }

  /** The `try` block after the container check: the structured data is
      selected, then read, then the first container. */
  function Enrich(p: Page, ev: CaptureEvent, uri: string, h: TextHelpers): Step
    requires |p.containers| > 0
  {
    match SelectLdEvent(p.scripts)
    case Fail(m) => Throw(ev, m)
    case Ok(ld) =>
      var s := LdStages(ld, ev, uri, h);
      After(s, ContainerStages(p.containers[0], s.ev, uri, h))
  }

  /** The whole function: snapshot, container check, stages, `catch`. */
  function DetailPage(p: Page, ev0: CaptureEvent, deps: Deps, h: TextHelpers): Enriched
  {
    var ev := Snapshot(ev0, p.bodyText, p.bodyHtml);
    if |p.containers| == 0 then Enriched(ev, ErrorEntry(NoContainerMsg(deps.curUri)))
    else Caught(Enrich(p, ev, deps.curUri, h), deps.curUri)
  }

  // ---------------------------------------------------------------------------
  // The function, statement by statement

  method StartFromLd(ld: LdObject, ev0: CaptureEvent, h: TextHelpers) returns (ev: CaptureEvent, thrown: Option<string>)
    ensures Step(ev, NoDiag, thrown) == LdStart(ld, ev0, h)
  {
    ev, thrown := ev0, None;
    if Truthy(ld.startDate) {
      match h.parseDate(ld.startDate.value)
      case None =>
        thrown := Some(InvalidTimeValue);
      case Some(d) =>
        ev := ev.(startDt := Some(d.iso));
    } else {
      thrown := Some(NoStartDtMsg);
    }
  }

  method FillFromLd(ld: LdObject, ev0: CaptureEvent, log: CaptureLog, uri: string, h: TextHelpers) returns (ev: CaptureEvent)
    modifies log`warningLogs
    ensures Ran(LdFill(ld, ev0, uri, h), ev, None, log, old(log.Entries()))
  {
    ev := ev0;
    ThenNoDiag(log.Entries());
    if Truthy(ld.image) {
      ev := ev.(eventImageUris := ev.eventImageUris + [ld.image.value]);
    } else {
      log.Warning("No main image found from json+ld for page: " + uri);
    }
    ev := ReadPlace(ld, ev);
    ev := ReadDoorTime(ld, ev, h);
  }

  /** The age, ticket link, venue and address of the structured data. */
  method ReadPlace(ld: LdObject, ev0: CaptureEvent) returns (ev: CaptureEvent)
    ensures ev == LdPlace(ld, ev0)
  {
    ev := ev0;
    if Truthy(ld.ageRange) && ld.typicalAgeRange == Some("all_ages") {
      ev := ev.(minAge := Some(0));
    }
    assert ev == AgeRange(ld, ev0);
    ghost var e1 := ev;
    if ld.offers.Some? && Truthy(ld.offers.value.url) && !Truthy(ev.ticketUri) {
      ev := ev.(ticketUri := ld.offers.value.url);
    }
    assert ev == OfferTicket(ld, e1);
    ghost var e2 := ev;
    if ld.location.Some? && Truthy(ld.location.value.name) && !Truthy(ev.venueName) {
      ev := ev.(venueName := ld.location.value.name);
    }
    assert ev == LocationVenue(ld, e2);
    if |ev.venueAddressLines| == 0 && ld.location.Some? && ld.location.value.typ == Some("Place") {
      var loc := ld.location.value;
      ev := ev.(venueAddressLines := ev.venueAddressLines + [loc.streetAddress, loc.addressLocality, loc.addressRegion, loc.postalCode]);
    }
  }

  /** The door time of the structured data. */
  method ReadDoorTime(ld: LdObject, ev0: CaptureEvent, h: TextHelpers) returns (ev: CaptureEvent)
    ensures ev == LdDoorTime(ld, ev0, h)
  {
    ev := ev0;
    if Truthy(ld.doorTime) {
      var doorTime := h.parseDate(ld.doorTime.value);
      if doorTime.None? {
        ev := ev.(doorTimeHours := Some(NaN), doorTimeMin := Some(NaN));
      } else {
        ev := ev.(doorTimeHours := Some(Num(doorTime.value.hours)), doorTimeMin := Some(Num(doorTime.value.millis)));
      }
    }
  }

  method ReadLd(ld: LdObject, ev0: CaptureEvent, log: CaptureLog, uri: string, h: TextHelpers) returns (ev: CaptureEvent, thrown: Option<string>)
    modifies log`warningLogs
    ensures Ran(LdStages(ld, ev0, uri, h), ev, thrown, log, old(log.Entries()))
  {
    ghost var log0 := log.Entries();
    ThenNoDiag(log0);
    ev, thrown := StartFromLd(ld, ev0, h);
    ghost var s1 := LdStart(ld, ev0, h);
    if thrown.Some? {
      return;
    }
    ev, thrown := ReadEndDate(ld, ev, log, uri, h);
    ghost var s2 := After(s1, LdEndDate(ld, s1.ev, uri, h));
    ChainLog(log0, s1, LdEndDate(ld, s1.ev, uri, h));
    if thrown.Some? {
      return;
    }
    ev := FillFromLd(ld, ev, log, uri, h);
    ChainLog(log0, s2, LdFill(ld, s2.ev, uri, h));
  }

  /** The promoter, the venue information and the start-date fallback. The
      source tests `startDtElem` a second time inside the fallback, where it
      is always set, so the error it would log there is never written. */
  method ReadContainerHead(c: Container, ev0: CaptureEvent, h: TextHelpers) returns (ev: CaptureEvent, thrown: Option<string>)
    ensures Step(ev, NoDiag, thrown) == ContainerHead(c, ev0, h)
  {
    ev, thrown := ev0, None;
    if c.toplineInfo.Some? {
      ev := ev.(promoters := ev.promoters + [PromoterInfo(c.toplineInfo.value, "", [])]);
    }
    ghost var e1 := ev;
    if c.venueInfo.Some? && |ev.venueAddressLines| == 0 {
      var lines := DropEmpty(Split(RemoveFirst(c.venueInfo.value, VenueInfoHeading), '\n'));
      ev := ev.(venueAddressLines := ev.venueAddressLines + AsLines(lines));
    }
    assert ev == VenueInfo(c, e1);
    if c.valueTitle.Some? && ev.startDt.None? {
      var title := c.valueTitle.value.value;
      if title.None? {
        ev := ev.(startDt := Some(EpochIso));
      } else {
        var actualStartDt := h.parseDate(title.value);
        if actualStartDt.None? {
          thrown := Some(InvalidTimeValue);
        } else {
          ev := ev.(startDt := Some(actualStartDt.value.iso));
        }
      }
    }
  }

  method ReadMainPerformer(c: Container, log: CaptureLog, uri: string) returns (mainPerformer: string)
    modifies log`warningLogs
    ensures mainPerformer == MainName(c)
    ensures log.Entries() == old(log.Entries()).Then(MainPerformer(c, uri))
  {
    mainPerformer := "";
    ThenNoDiag(log.Entries());
    if c.headliners.Some? {
      mainPerformer := Trim(c.headliners.value);
    } else {
      log.Warning("Expecting to find a main performer (h1.headliners.summary) for page: " + uri);
    }
  }

  method ReadDoors(c: Container, ev0: CaptureEvent, log: CaptureLog, uri: string, h: TextHelpers) returns (ev: CaptureEvent)
    modifies log`infoLogs
    ensures Ran(Doors(c, ev0, uri, h), ev, None, log, old(log.Entries()))
  {
    ev := ev0;
    ThenNoDiag(log.Entries());
    if c.doors.Some? {
      var doorTxt := Trim(c.doors.value);
      var t := h.parseTime(doorTxt);
      ev := ev.(rawDoorTimeStr := Some(t.0), doorTimeHours := Some(Num(t.1)), doorTimeMin := Some(Num(t.2)));
    } else {
      log.Info("No door info found in h2.times span.doors in div.event-detail for page: " + uri);
    }
  }

  method ReadDetailCost(c: Container, ev0: CaptureEvent, log: CaptureLog, uri: string, h: TextHelpers) returns (ev: CaptureEvent)
    modifies log`infoLogs
    ensures Ran(DetailCost(c, ev0, uri, h), ev, None, log, old(log.Entries()))
  {
    ev := ev0;
    ThenNoDiag(log.Entries());
    if !Truthy(ev.ticketCostRaw) {
      if c.priceRange.Some? {
        var rawTixPriceTxt := Trim(c.priceRange.value);
        ev := ev.(ticketCostRaw := Some(rawTixPriceTxt));
        ev := ev.(ticketCost := h.parseTicketString(rawTixPriceTxt));
      } else {
        log.Info("No ticket info found in h2.times span.doors in div.event-detail for page: " + uri);
      }
    }
  }

  method ReadShares(c: Container, ev0: CaptureEvent, log: CaptureLog, uri: string) returns (ev: CaptureEvent)
    modifies log`infoLogs
    ensures Ran(Shares(c, ev0, uri), ev, None, log, old(log.Entries()))
  {
    ghost var log0 := log.Entries();
    ghost var f := LinkOr(c.facebookShare, ev0.facebookShareUri, NoFbShare + uri);
    ghost var t := LinkOr(c.twitterShare, ev0.twitterShareUri, NoTwitterShare + uri);
    ghost var i := LinkOr(c.iCal, ev0.iCalUri, NoICal + uri);
    ghost var g := LinkOr(c.gCal, ev0.gCalUri, NoGCal + uri);
    ThenNoDiag(log0);
    var facebookShareUri := ev0.facebookShareUri;
    if c.facebookShare.Some? {
      facebookShareUri := c.facebookShare.value.value;
    } else {
      log.Info(NoFbShare + uri);
    }
    ghost var log1 := log.Entries();
    assert log1 == log0.Then(f.1);
    ThenNoDiag(log1);
    var twitterShareUri := ev0.twitterShareUri;
    if c.twitterShare.Some? {
      twitterShareUri := c.twitterShare.value.value;
    } else {
      log.Info(NoTwitterShare + uri);
    }
    ghost var log2 := log.Entries();
    assert log2 == log1.Then(t.1);
    ThenNoDiag(log2);
    var iCalUri := ev0.iCalUri;
    if c.iCal.Some? {
      iCalUri := c.iCal.value.value;
    } else {
      log.Info(NoICal + uri);
    }
    ghost var log3 := log.Entries();
    assert log3 == log2.Then(i.1);
    ThenNoDiag(log3);
    var gCalUri := ev0.gCalUri;
    if c.gCal.Some? {
      gCalUri := c.gCal.value.value;
    } else {
      log.Info(NoGCal + uri);
    }
    assert log.Entries() == log3.Then(g.1);
    ThenAssoc(log0, f.1, t.1);
    ThenAssoc(log0, f.1.Then(t.1), i.1);
    ThenAssoc(log0, f.1.Then(t.1).Then(i.1), g.1);
    ev := ev0.(facebookShareUri := facebookShareUri, twitterShareUri := twitterShareUri, iCalUri := iCalUri, gCalUri := gCalUri);
  }

  method ReadContainerMiddle(c: Container, ev0: CaptureEvent, log: CaptureLog, uri: string, h: TextHelpers)
    returns (ev: CaptureEvent, mainPerformer: string)
    modifies log`warningLogs, log`infoLogs
    ensures Ran(ContainerMiddle(c, ev0, uri, h), ev, None, log, old(log.Entries()))
    ensures mainPerformer == MainName(c)
  {
    ghost var log0 := log.Entries();
    mainPerformer := ReadMainPerformer(c, log, uri);
    ghost var s := Done(ev0, MainPerformer(c, uri));
    ev := ReadDoors(c, ev0, log, uri, h);
    ChainLog(log0, s, Doors(c, s.ev, uri, h));
    s := After(s, Doors(c, s.ev, uri, h));
    ev := ReadDetailCost(c, ev, log, uri, h);
    ChainLog(log0, s, DetailCost(c, s.ev, uri, h));
    s := After(s, DetailCost(c, s.ev, uri, h));
    ev := ReadShares(c, ev, log, uri);
    ChainLog(log0, s, Shares(c, s.ev, uri));
  }

  /** The `ul.tfly-more li a` loop: each href that does not start an in-page
      anchor is kept, and a link without one throws. */
  method ReadBoxLinks(links: seq<JsStr>) returns (uris: seq<string>, thrown: Option<string>)
    ensures thrown.None? <==> BoxLinks(links).Ok?
    ensures thrown.None? ==> uris == BoxLinks(links).value
    ensures thrown.Some? ==> thrown.value == BoxLinks(links).msg
  {
    uris, thrown := [], None;
    for i := 0 to |links|
      invariant BoxLinks(links[..i]) == Ok(uris)
    {
      assert links[..i + 1][..i] == links[..i];
      var link := links[i];
      if link.None? {
        thrown := Some(NullRead("match"));
        BoxLinksSticky(links, i + 1);
        return;
      }
      if !InPageAnchor(link.value) {
        uris := uris + [link.value];
      }
    }
    assert links[..|links|] == links;
  }

  /** Once a link has thrown, later links change nothing. */
  lemma {:induction false} BoxLinksSticky(links: seq<JsStr>, k: nat)
    requires k <= |links| && BoxLinks(links[..k]).Fail?
    ensures BoxLinks(links) == BoxLinks(links[..k])
    decreases |links|
  {
    if k < |links| {
      var init := links[..|links| - 1];
      assert init[..k] == links[..k];
      BoxLinksSticky(init, k);
    } else {
      assert links[..k] == links;
    }
  }

  method ReadArtistBox(box: ArtistBox, main: string, ev0: CaptureEvent, log: CaptureLog, uri: string) returns (ev: CaptureEvent, thrown: Option<string>)
    modifies log`warningLogs, log`infoLogs
    ensures Ran(ArtistBoxStep(box, main, ev0, uri), ev, thrown, log, old(log.Entries()))
  {
    ev, thrown := ev0, None;
    ghost var log0 := log.Entries();
    ThenNoDiag(log0);
    if box.artistName.None? {
      log.Warning("No Performer Name in Artist Box for page: " + uri);
      return;
    }
    var performerName := Trim(box.artistName.value);
    var isPrimaryPerformer := Lower(main) == Lower(performerName);
    var performerUris;
    performerUris, thrown := ReadBoxLinks(box.links);
    if thrown.Some? {
      return;
    }
    var performerImageUris: seq<JsStr> := [];
    var bioImgElem := if box.bioImageRight.Some? then box.bioImageRight else box.bioImageNoFloat;
    if bioImgElem.Some? {
      performerImageUris := performerImageUris + [bioImgElem.value.src];
      assert performerImageUris == [bioImgElem.value.src];
    } else {
      log.Info("No Performer image found in img.bio-image-right for " + performerName + " for page: " + uri);
    }
    ghost var log1 := log.Entries();
    ThenNoDiag(log1);
    var performerDesc := None;
    if box.bio.Some? {
      performerDesc := Some(Trim(box.bio.value));
    } else {
      log.Info("No Performer Bio found in div.bio for " + performerName + " for page: " + uri);
    }
    ThenAssoc(log0, log1.Then(NoDiag), NoDiag);
    var curPerformer := CapturePerformer(performerName, performerUris, performerImageUris, isPrimaryPerformer, performerDesc);
    assert curPerformer == BoxPerformer(box, performerName, main, performerUris);
    ev := ev.(performers := ev.performers + [curPerformer]);
  }

  /** Once a box has thrown, later boxes change nothing. */
  lemma {:induction false} ArtistsSticky(boxes: seq<ArtistBox>, k: nat, main: string, ev: CaptureEvent, uri: string)
    requires k <= |boxes| && Artists(boxes[..k], main, ev, uri).thrown.Some?
    ensures Artists(boxes, main, ev, uri) == Artists(boxes[..k], main, ev, uri)
    decreases |boxes|
  {
    if k < |boxes| {
      var init := boxes[..|boxes| - 1];
      assert init[..k] == boxes[..k];
      ArtistsSticky(init, k, main, ev, uri);
    } else {
      assert boxes[..k] == boxes;
    }
  }

  method ReadArtists(boxes: seq<ArtistBox>, main: string, ev0: CaptureEvent, log: CaptureLog, uri: string) returns (ev: CaptureEvent, thrown: Option<string>)
    modifies log`warningLogs, log`infoLogs
    ensures Ran(Artists(boxes, main, ev0, uri), ev, thrown, log, old(log.Entries()))
  {
    ghost var log0 := log.Entries();
    ThenNoDiag(log0);
    ev, thrown := ev0, None;
    for i := 0 to |boxes|
      invariant Ran(Artists(boxes[..i], main, ev0, uri), ev, None, log, log0)
      invariant thrown.None?
    {
      ghost var s := Artists(boxes[..i], main, ev0, uri);
      assert boxes[..i + 1][..i] == boxes[..i];
      ev, thrown := ReadArtistBox(boxes[i], main, ev, log, uri);
      ChainLog(log0, s, ArtistBoxStep(boxes[i], main, s.ev, uri));
      if thrown.Some? {
        ArtistsSticky(boxes, i + 1, main, ev0, uri);
        return;
      }
    }
    assert boxes[..|boxes|] == boxes;
  }

  /** The secondary pass over `performerDoubleCheck`: the labels, mapped to
      performers, are appended one by one unless the name is already there. */
  method AddLabelPerformers(performers0: seq<CapturePerformer>, labels: seq<string>) returns (performers: seq<CapturePerformer>)
    ensures performers == AddLabels(performers0, labels)
  {
    var performerDoubleCheck := seq(|labels|, i requires 0 <= i < |labels| => LabelPerformer(labels[i], i));
    performers := performers0;
    for i := 0 to |performerDoubleCheck|
      invariant performers == AddLabels(performers0, labels[..i])
    {
      assert labels[..i + 1][..i] == labels[..i];
      var p := performerDoubleCheck[i];
      if !HasPerformerCI(performers, p.performerName) {
        performers := performers + [p];
      }
    }
    assert labels[..|labels|] == labels;
  }

  method ReadContainer(c: Container, ev0: CaptureEvent, log: CaptureLog, uri: string, h: TextHelpers) returns (ev: CaptureEvent, thrown: Option<string>)
    modifies log`warningLogs, log`infoLogs
    ensures Ran(ContainerStages(c, ev0, uri, h), ev, thrown, log, old(log.Entries()))
  {
    ghost var log0 := log.Entries();
    ThenNoDiag(log0);
    ev, thrown := ReadContainerHead(c, ev0, h);
    ghost var s := ContainerHead(c, ev0, h);
    if thrown.Some? {
      return;
    }
    var mainPerformer;
    ev, mainPerformer := ReadContainerMiddle(c, ev, log, uri, h);
    ChainLog(log0, s, ContainerMiddle(c, s.ev, uri, h));
    s := After(s, ContainerMiddle(c, s.ev, uri, h));
    ev, thrown := ReadArtists(c.artistBoxes, mainPerformer, ev, log, uri);
    ChainLog(log0, s, Artists(c.artistBoxes, MainName(c), s.ev, uri));
    s := After(s, Artists(c.artistBoxes, MainName(c), s.ev, uri));
    if thrown.Some? {
      return;
    }
    var performers := AddLabelPerformers(ev.performers, c.labels);
    ev := ev.(performers := performers);
    ThenNoDiag(log.Entries());
    ChainLog(log0, s, Done(s.ev.(performers := AddLabels(s.ev.performers, c.labels)), NoDiag));
  }

  /** The `try` block after the container check. */
  method EnrichPage(p: Page, ev0: CaptureEvent, log: CaptureLog, uri: string, h: TextHelpers) returns (ev: CaptureEvent, thrown: Option<string>)
    requires |p.containers| > 0
    modifies log`warningLogs, log`infoLogs
    ensures Ran(Enrich(p, ev0, uri, h), ev, thrown, log, old(log.Entries()))
  {
    ghost var log0 := log.Entries();
    ThenNoDiag(log0);
    ev := ev0;
    var ld := SelectLdEvent(p.scripts);
    if ld.Fail? {
      thrown := Some(ld.msg);
      return;
    }
    ev, thrown := ReadLd(ld.value, ev, log, uri, h);
    ghost var s := LdStages(ld.value, ev0, uri, h);
    if thrown.Some? {
      return;
    }
    ev, thrown := ReadContainer(p.containers[0], ev, log, uri, h);
    ChainLog(log0, s, ContainerStages(p.containers[0], s.ev, uri, h));
  }

  /** `parseRichmondShowsDetailPageBrowserFn(detailCtx, curEvent, log, deps)`:
      the event it returns and the entries it adds are those of `DetailPage`. */
  method ParseDetailPage(p: Page, curEvent: CaptureEvent, log: CaptureLog, deps: Deps, h: TextHelpers) returns (ev: CaptureEvent)
    modifies log`errorLogs, log`warningLogs, log`infoLogs
    ensures ev == DetailPage(p, curEvent, deps, h).ev
    ensures log.Entries() == old(log.Entries()).Then(DetailPage(p, curEvent, deps, h).delta)
  {
    ev := Snapshot(curEvent, p.bodyText, p.bodyHtml);
    if |p.containers| == 0 {
      log.Error(NoContainerMsg(deps.curUri));
      return;
    }
    ghost var log0 := log.Entries();
    var thrown;
    ev, thrown := EnrichPage(p, ev, log, deps.curUri, h);
    if thrown.Some? {
      log.Error(DetailException(thrown.value, deps.curUri));
      ThenAssoc(log0, Enrich(p, Snapshot(curEvent, p.bodyText, p.bodyHtml), deps.curUri, h).delta, ErrorEntry(DetailException(thrown.value, deps.curUri)));
    }
  }

  // ---------------------------------------------------------------------------
  // Venue information and profile links

  /** The lines `div.venue-info` gives are never empty and never span a line
      break; a text that starts with the heading loses exactly the heading. */
  lemma VenueInfoLinesSpec(text: string)
    ensures forall k :: 0 <= k < |VenueInfoLines(text)| ==> VenueInfoLines(text)[k] != "" && '\n' !in VenueInfoLines(text)[k]
    ensures forall rest :: text == VenueInfoHeading + rest ==> VenueInfoLines(text) == DropEmpty(Split(rest, '\n'))
  {
    forall rest | text == VenueInfoHeading + rest
      ensures VenueInfoLines(text) == DropEmpty(Split(rest, '\n'))
    {
      RemoveFirstAtStart(VenueInfoHeading, rest);
    }
  }

  /** No profile link is an in-page anchor. */
  predicate NoAnchors(uris: seq<string>)
  {
    forall j :: 0 <= j < |uris| ==> !InPageAnchor(uris[j])
  }

  /** The profile links are read exactly when every link has an href, and a
      missing one fails as `match` on null does; they are then the hrefs that
      are not in-page anchors, all of them and nothing else. */
  lemma {:induction false} BoxLinksSpec(links: seq<JsStr>)
    ensures BoxLinks(links).Ok? <==> forall i :: 0 <= i < |links| ==> links[i].Some?
    ensures BoxLinks(links).Fail? ==> BoxLinks(links).msg == NullRead("match")
    ensures BoxLinks(links).Ok? ==> NoAnchors(BoxLinks(links).value)
    ensures BoxLinks(links).Ok? ==> forall k :: 0 <= k < |BoxLinks(links).value| ==> Some(BoxLinks(links).value[k]) in links
    ensures BoxLinks(links).Ok? ==> forall i :: 0 <= i < |links| && links[i].Some? && !InPageAnchor(links[i].value) ==> links[i].value in BoxLinks(links).value
  {
    if links != [] {
      var init := links[..|links| - 1];
      BoxLinksSpec(init);
      assert forall i :: 0 <= i < |init| ==> init[i] == links[i];
      assert links == init + [links[|links| - 1]];
    }
  }

  /** The bio image is `bio-image-right` when there is one, else `bio-image-no-float`, else none. */
  lemma BoxPerformerImages(b: ArtistBox, name: string, main: string, uris: seq<string>)
    ensures var imgs := BoxPerformer(b, name, main, uris).performerImageUris;
      && (b.bioImageRight.Some? ==> imgs == [b.bioImageRight.value.src])
      && (b.bioImageRight.None? && b.bioImageNoFloat.Some? ==> imgs == [b.bioImageNoFloat.value.src])
      && (b.bioImageRight.None? && b.bioImageNoFloat.None? ==> imgs == [])
  {
  }

  // ---------------------------------------------------------------------------
  // What the boxes and the labels do to the performers

  /** A box is read without an exception when it has no name or every
      profile link has an href. */
  predicate BoxReadable(b: ArtistBox)
  {
    b.artistName.Some? ==> BoxLinks(b.links).Ok?
  }

  /** The performer a readable box adds, if any. */
  function BoxAdd(b: ArtistBox, main: string): seq<CapturePerformer>
    requires BoxReadable(b)
  {
    if b.artistName.None? then [] else [BoxPerformer(b, Trim(b.artistName.value), main, BoxLinks(b.links).value)]
  }

  /** The performers readable boxes add, in page order. */
  function BoxAdds(boxes: seq<ArtistBox>, main: string): seq<CapturePerformer>
    requires forall i :: 0 <= i < |boxes| ==> BoxReadable(boxes[i])
  {
    if boxes == [] then [] else BoxAdds(boxes[..|boxes| - 1], main) + BoxAdd(boxes[|boxes| - 1], main)
  }

  /** The trimmed names of the boxes that have one, in page order. */
  function BoxNames(boxes: seq<ArtistBox>): seq<string>
  {
    if boxes == [] then []
    else
      var b := boxes[|boxes| - 1];
      BoxNames(boxes[..|boxes| - 1]) + if b.artistName.Some? then [Trim(b.artistName.value)] else []
  }

  /** Each named box adds one performer named by its trimmed name, primary
      exactly when that matches the main performer up to case, with no
      in-page anchor among its links and at most one image. */
  lemma {:induction false} BoxAddsSpec(boxes: seq<ArtistBox>, main: string)
    requires forall i :: 0 <= i < |boxes| ==> BoxReadable(boxes[i])
    ensures |BoxAdds(boxes, main)| == |BoxNames(boxes)|
    ensures forall k :: 0 <= k < |BoxAdds(boxes, main)| ==>
      && BoxAdds(boxes, main)[k].performerName == BoxNames(boxes)[k]
      && BoxAdds(boxes, main)[k].isPrimaryPerformer == EqualCI(main, BoxNames(boxes)[k])
      && NoAnchors(BoxAdds(boxes, main)[k].performerUris)
      && |BoxAdds(boxes, main)[k].performerImageUris| <= 1
  {
    if boxes != [] {
      var init := boxes[..|boxes| - 1];
      var b := boxes[|boxes| - 1];
      BoxAddsSpec(init, main);
      if b.artistName.Some? {
        BoxLinksSpec(b.links);
      }
    }
  }

  /** One box changes only the performers and logs no error: it throws
      unless it is readable, leaving the event as it was, and otherwise adds
      what `BoxAdd` says; a box without a name is one warning. */
  lemma BoxStepSpec(b: ArtistBox, main: string, ev: CaptureEvent, uri: string)
    ensures var r := ArtistBoxStep(b, main, ev, uri);
      && r.ev == ev.(performers := r.ev.performers)
      && r.delta.errors == []
      && (r.thrown.None? <==> BoxReadable(b))
      && (r.thrown.Some? ==> r.ev == ev && r.thrown == Some(NullRead("match")))
      && (r.thrown.None? ==> r.ev.performers == ev.performers + BoxAdd(b, main))
      && (b.artistName.None? ==> r.delta == WarningEntry("No Performer Name in Artist Box for page: " + uri))
  {
    BoxLinksSpec(b.links);
  }

  /** The artist boxes change only the performers, which they extend, and
      log no error. */
  lemma {:induction false} ArtistsFrame(boxes: seq<ArtistBox>, main: string, ev: CaptureEvent, uri: string)
    ensures var r := Artists(boxes, main, ev, uri);
      && r.ev == ev.(performers := r.ev.performers)
      && ev.performers <= r.ev.performers
      && r.delta.errors == []
  {
    if boxes != [] {
      var init := boxes[..|boxes| - 1];
      ArtistsFrame(init, main, ev, uri);
      var s := Artists(init, main, ev, uri);
      BoxStepSpec(boxes[|boxes| - 1], main, s.ev, uri);
    }
  }

  /** The boxes throw exactly when one of them is not readable. */
  lemma {:induction false} ArtistsThrow(boxes: seq<ArtistBox>, main: string, ev: CaptureEvent, uri: string)
    ensures Artists(boxes, main, ev, uri).thrown.None? <==> forall i :: 0 <= i < |boxes| ==> BoxReadable(boxes[i])
  {
    if boxes != [] {
      var init := boxes[..|boxes| - 1];
      ArtistsThrow(init, main, ev, uri);
      assert forall i :: 0 <= i < |init| ==> init[i] == boxes[i];
      BoxThrows(boxes[|boxes| - 1], main, Artists(init, main, ev, uri).ev, uri);
    }
  }

  lemma BoxThrows(b: ArtistBox, main: string, ev: CaptureEvent, uri: string)
    ensures ArtistBoxStep(b, main, ev, uri).thrown.None? <==> BoxReadable(b)
  {
  }

  /** Without an exception the boxes add exactly `BoxAdds`. */
  lemma {:induction false} ArtistsAdd(boxes: seq<ArtistBox>, main: string, ev: CaptureEvent, uri: string)
    requires forall i :: 0 <= i < |boxes| ==> BoxReadable(boxes[i])
    ensures Artists(boxes, main, ev, uri).ev.performers == ev.performers + BoxAdds(boxes, main)
  {
    if boxes != [] {
      var init := boxes[..|boxes| - 1];
      ArtistsAdd(init, main, ev, uri);
      ArtistsThrow(init, main, ev, uri);
      var s := Artists(init, main, ev, uri);
      BoxStepSpec(boxes[|boxes| - 1], main, s.ev, uri);
    }
  }

  lemma HasPerformerCIGrows(ps: seq<CapturePerformer>, more: seq<CapturePerformer>, name: string)
    requires HasPerformerCI(ps, name)
    ensures HasPerformerCI(ps + more, name)
  {
    var k :| 0 <= k < |ps| && EqualCI(ps[k].performerName, name);
    assert (ps + more)[k] == ps[k];
  }

  /** The label pass keeps every performer it was given; afterwards every
      label's trimmed text names a performer up to case; each performer it
      adds stands for a label, primary exactly when that is the first
      label; and it never makes two names equal up to case. */
  lemma AddLabelsSpec(ps: seq<CapturePerformer>, labels: seq<string>)
    ensures ps <= AddLabels(ps, labels)
    ensures forall i :: 0 <= i < |labels| ==> HasPerformerCI(AddLabels(ps, labels), Trim(labels[i]))
    ensures forall k :: |ps| <= k < |AddLabels(ps, labels)| ==>
      exists i :: 0 <= i < |labels| && AddLabels(ps, labels)[k] == LabelPerformer(labels[i], i)
    ensures NamesDistinctCI(ps) ==> NamesDistinctCI(AddLabels(ps, labels))
  {
    AddLabelsPrefix(ps, labels);
    AddLabelsCover(ps, labels);
    AddLabelsOrigin(ps, labels);
    if NamesDistinctCI(ps) {
      AddLabelsDistinct(ps, labels);
    }
  }

  lemma {:induction false} AddLabelsPrefix(ps: seq<CapturePerformer>, labels: seq<string>)
    ensures ps <= AddLabels(ps, labels)
  {
    if labels != [] {
      AddLabelsPrefix(ps, labels[..|labels| - 1]);
    }
  }

  lemma {:induction false} AddLabelsCover(ps: seq<CapturePerformer>, labels: seq<string>)
    ensures forall i :: 0 <= i < |labels| ==> HasPerformerCI(AddLabels(ps, labels), Trim(labels[i]))
  {
    if labels != [] {
      var init := labels[..|labels| - 1];
      var n := |labels| - 1;
      AddLabelsCover(ps, init);
      var prev := AddLabels(ps, init);
      var p := LabelPerformer(labels[n], n);
      var r := AddLabels(ps, labels);
      assert r == if HasPerformerCI(prev, p.performerName) then prev else prev + [p];
      forall i | 0 <= i < |labels| ensures HasPerformerCI(r, Trim(labels[i])) {
        if i < n {
          assert init[i] == labels[i];
          if r != prev {
            HasPerformerCIGrows(prev, [p], Trim(labels[i]));
          }
        } else if r != prev {
          assert r[|prev|] == p;
          assert EqualCI(r[|prev|].performerName, Trim(labels[i]));
        }
      }
    }
  }

  lemma {:induction false} AddLabelsOrigin(ps: seq<CapturePerformer>, labels: seq<string>)
    ensures forall k :: |ps| <= k < |AddLabels(ps, labels)| ==>
      exists i :: 0 <= i < |labels| && AddLabels(ps, labels)[k] == LabelPerformer(labels[i], i)
  {
    if labels != [] {
      var init := labels[..|labels| - 1];
      var n := |labels| - 1;
      AddLabelsOrigin(ps, init);
      var prev := AddLabels(ps, init);
      var p := LabelPerformer(labels[n], n);
      var r := AddLabels(ps, labels);
      assert r == if HasPerformerCI(prev, p.performerName) then prev else prev + [p];
      forall k | |ps| <= k < |r|
        ensures exists i :: 0 <= i < |labels| && r[k] == LabelPerformer(labels[i], i)
      {
        if k < |prev| {
          var i :| 0 <= i < |init| && prev[k] == LabelPerformer(init[i], i);
          assert init[i] == labels[i];
          assert r[k] == prev[k];
          assert 0 <= i < |labels| && r[k] == LabelPerformer(labels[i], i);
        } else {
          assert r[k] == LabelPerformer(labels[n], n);
        }
      }
    } else {
      assert AddLabels(ps, labels) == ps;
    }
  }

  lemma {:induction false} AddLabelsDistinct(ps: seq<CapturePerformer>, labels: seq<string>)
    requires NamesDistinctCI(ps)
    ensures NamesDistinctCI(AddLabels(ps, labels))
  {
    if labels != [] {
      var init := labels[..|labels| - 1];
      AddLabelsDistinct(ps, init);
      var prev := AddLabels(ps, init);
      var p := LabelPerformer(labels[|labels| - 1], |labels| - 1);
      if !HasPerformerCI(prev, p.performerName) {
        var r := prev + [p];
        forall i, j | 0 <= i < j < |r| ensures !EqualCI(r[i].performerName, r[j].performerName) {
          if j == |prev| {
            assert r[i] == prev[i] && r[j] == p;
          } else {
            assert r[i] == prev[i] && r[j] == prev[j];
          }
        }
      }
    }
  }

  // ---------------------------------------------------------------------------
  // What the stages leave alone

  /** What every stage leaves alone: the list page's links, title and
      channel fields; a ticket link, venue, cost text or address the stub
      already has; and the performers, images, promoters and address lines,
      which only grow. */
  predicate Keeps(a: CaptureEvent, b: CaptureEvent)
  {
    && b.tenantName == a.tenantName && b.channelName == a.channelName
    && b.channelImage == a.channelImage && b.channelBaseUri == a.channelBaseUri
    && b.eventUris == a.eventUris && b.eventTitle == a.eventTitle
    && b.venueContactInfo == a.venueContactInfo && b.neighborhood == a.neighborhood
    && b.detailPageInnerText == a.detailPageInnerText && b.detailPageHtml == a.detailPageHtml
    && (Truthy(a.ticketUri) ==> b.ticketUri == a.ticketUri)
    && (Truthy(a.venueName) ==> b.venueName == a.venueName)
    && (Truthy(a.ticketCostRaw) ==> b.ticketCostRaw == a.ticketCostRaw && b.ticketCost == a.ticketCost)
    && (|a.venueAddressLines| > 0 ==> b.venueAddressLines == a.venueAddressLines)
    && a.performers <= b.performers && a.eventImageUris <= b.eventImageUris
    && a.venueAddressLines <= b.venueAddressLines && a.promoters <= b.promoters
  }

  /** `Keeps`, and a start date once set is not replaced. */
  predicate KeepsStart(a: CaptureEvent, b: CaptureEvent)
  {
    Keeps(a, b) && (a.startDt.Some? ==> b.startDt == a.startDt)
  }

  /** Run `s` from `ev` keeps what `KeepsStart` names and logs no error. */
  predicate Quiet(ev: CaptureEvent, s: Step)
  {
    KeepsStart(ev, s.ev) && s.delta.errors == []
  }

  lemma KeepsTrans(a: CaptureEvent, b: CaptureEvent, c: CaptureEvent)
    requires Keeps(a, b) && Keeps(b, c)
    ensures Keeps(a, c)
  {
  }

  lemma AfterQuiet(ev: CaptureEvent, a: Step, b: Step)
    requires Quiet(ev, a) && Quiet(a.ev, b)
    ensures Quiet(ev, After(a, b))
  {
    if a.thrown.None? {
      KeepsTrans(ev, a.ev, b.ev);
    }
  }

  // One lemma per kind of update the stages make.

  lemma KeepsSame(ev: CaptureEvent)
    ensures KeepsStart(ev, ev)
  {
  }

  lemma KeepsNewStart(ev: CaptureEvent, d: Option<IsoString>)
    ensures Keeps(ev, ev.(startDt := d))
  {
  }

  lemma KeepsFirstStart(ev: CaptureEvent, d: Option<IsoString>)
    requires ev.startDt.None?
    ensures KeepsStart(ev, ev.(startDt := d))
  {
  }

  lemma KeepsNewEnd(ev: CaptureEvent, d: Option<IsoString>)
    ensures KeepsStart(ev, ev.(endDt := d))
  {
  }

  lemma KeepsImage(ev: CaptureEvent, image: string)
    ensures KeepsStart(ev, ev.(eventImageUris := ev.eventImageUris + [image]))
  {
  }

  lemma KeepsAge(ev: CaptureEvent, age: Option<int>)
    ensures KeepsStart(ev, ev.(minAge := age))
  {
  }

  lemma KeepsTicketUri(ev: CaptureEvent, u: JsStr)
    requires !Truthy(ev.ticketUri)
    ensures KeepsStart(ev, ev.(ticketUri := u))
  {
  }

  lemma KeepsVenueName(ev: CaptureEvent, n: JsStr)
    requires !Truthy(ev.venueName)
    ensures KeepsStart(ev, ev.(venueName := n))
  {
  }

  lemma KeepsAddress(ev: CaptureEvent, lines: seq<JsStr>)
    requires |ev.venueAddressLines| == 0
    ensures KeepsStart(ev, ev.(venueAddressLines := ev.venueAddressLines + lines))
  {
  }

  lemma KeepsPromoter(ev: CaptureEvent, pr: PromoterInfo)
    ensures KeepsStart(ev, ev.(promoters := ev.promoters + [pr]))
  {
  }

  lemma KeepsDoors(ev: CaptureEvent, t: (string, int, int))
    ensures KeepsStart(ev, WithDoors(ev, t))
  {
  }

  lemma KeepsCost(ev: CaptureEvent, raw: string, amts: seq<TicketAmtInfo>)
    requires !Truthy(ev.ticketCostRaw)
    ensures KeepsStart(ev, ev.(ticketCostRaw := Some(raw), ticketCost := amts))
  {
  }

  lemma KeepsShares(ev: CaptureEvent, f: JsStr, t: JsStr, i: JsStr, g: JsStr)
    ensures KeepsStart(ev, ev.(facebookShareUri := f, twitterShareUri := t, iCalUri := i, gCalUri := g))
  {
  }

  lemma KeepsPerformers(ev: CaptureEvent, ps: seq<CapturePerformer>)
    requires ev.performers <= ps
    ensures KeepsStart(ev, ev.(performers := ps))
  {
  }

  // The stages, one by one

  lemma LdStartKeeps(ld: LdObject, ev: CaptureEvent, h: TextHelpers)
    ensures var r := LdStart(ld, ev, h);
      && Keeps(ev, r.ev) && r.delta == NoDiag && r.ev.performers == ev.performers
      && (!Truthy(ld.startDate) ==> r == Throw(ev, NoStartDtMsg))
      && (Truthy(ld.startDate) && h.parseDate(ld.startDate.value).None? ==> r == Throw(ev, InvalidTimeValue))
      && (Truthy(ld.startDate) && h.parseDate(ld.startDate.value).Some? ==>
            r.thrown.None? && r.ev.startDt == Some(h.parseDate(ld.startDate.value).value.iso))
  {
    if Truthy(ld.startDate) && h.parseDate(ld.startDate.value).Some? {
      KeepsNewStart(ev, Some(h.parseDate(ld.startDate.value).value.iso));
    } else {
      KeepsSame(ev);
    }
  }

  lemma LdEndDateKeeps(ld: LdObject, ev: CaptureEvent, uri: string, h: TextHelpers)
    ensures Quiet(ev, LdEndDate(ld, ev, uri, h)) && LdEndDate(ld, ev, uri, h).ev.performers == ev.performers
  {
    if Truthy(ld.endDate) && h.parseDate(ld.endDate.value).Some? {
      KeepsNewEnd(ev, Some(h.parseDate(ld.endDate.value).value.iso));
    } else {
      KeepsSame(ev);
    }
  }

  /** Run `s` from `ev` is `Quiet`, does not throw and leaves the performers alone. */
  predicate Plain(ev: CaptureEvent, s: Step)
  {
    Quiet(ev, s) && s.thrown.None? && s.ev.performers == ev.performers
  }

  lemma AfterPlain(ev: CaptureEvent, a: Step, b: Step)
    requires Plain(ev, a) && Plain(a.ev, b)
    ensures Plain(ev, After(a, b))
  {
    AfterQuiet(ev, a, b);
  }

  lemma LdImageKeeps(ld: LdObject, ev: CaptureEvent, uri: string)
    ensures Plain(ev, LdImage(ld, ev, uri))
  {
    if Truthy(ld.image) { KeepsImage(ev, ld.image.value); } else { KeepsSame(ev); }
  }

  lemma AgeRangeKeeps(ld: LdObject, ev: CaptureEvent)
    ensures Plain(ev, Done(AgeRange(ld, ev), NoDiag))
  {
    KeepsAge(ev, AgeRange(ld, ev).minAge);
  }

  lemma OfferTicketKeeps(ld: LdObject, ev: CaptureEvent)
    ensures Plain(ev, Done(OfferTicket(ld, ev), NoDiag))
  {
    if OfferTicket(ld, ev) != ev { KeepsTicketUri(ev, ld.offers.value.url); } else { KeepsSame(ev); }
  }

  lemma LocationVenueKeeps(ld: LdObject, ev: CaptureEvent)
    ensures Plain(ev, Done(LocationVenue(ld, ev), NoDiag))
  {
    if LocationVenue(ld, ev) != ev { KeepsVenueName(ev, ld.location.value.name); } else { KeepsSame(ev); }
  }

  lemma PlaceAddressKeeps(ld: LdObject, ev: CaptureEvent)
    ensures Plain(ev, Done(PlaceAddress(ld, ev), NoDiag))
  {
    if PlaceAddress(ld, ev) != ev { KeepsAddress(ev, PlaceLines(ld.location.value)); } else { KeepsSame(ev); }
  }

  lemma LdDoorTimeKeeps(ld: LdObject, ev: CaptureEvent, h: TextHelpers)
    ensures Plain(ev, Done(LdDoorTime(ld, ev, h), NoDiag))
  {
  }

  lemma LdFillKeeps(ld: LdObject, ev: CaptureEvent, uri: string, h: TextHelpers)
    ensures Plain(ev, LdFill(ld, ev, uri, h))
  {
    var s1 := LdImage(ld, ev, uri);
    LdImageKeeps(ld, ev, uri);
    var s2 := Done(AgeRange(ld, s1.ev), NoDiag);
    AgeRangeKeeps(ld, s1.ev);
    AfterPlain(ev, s1, s2);
    var s3 := Done(OfferTicket(ld, s2.ev), NoDiag);
    OfferTicketKeeps(ld, s2.ev);
    AfterPlain(ev, After(s1, s2), s3);
    var s4 := Done(LocationVenue(ld, s3.ev), NoDiag);
    LocationVenueKeeps(ld, s3.ev);
    AfterPlain(ev, After(After(s1, s2), s3), s4);
    var s5 := Done(PlaceAddress(ld, s4.ev), NoDiag);
    PlaceAddressKeeps(ld, s4.ev);
    AfterPlain(ev, After(After(After(s1, s2), s3), s4), s5);
    var s6 := Done(LdDoorTime(ld, s5.ev, h), NoDiag);
    LdDoorTimeKeeps(ld, s5.ev, h);
    AfterPlain(ev, After(After(After(After(s1, s2), s3), s4), s5), s6);
  }

  /** The structured-data stages keep what `Keeps` names and the performers
      and log no error; without a `startDate`, or with one `Date` cannot
      read, they throw before changing anything, and otherwise `startDt` is
      that date. */
  lemma LdStagesKeep(ld: LdObject, ev: CaptureEvent, uri: string, h: TextHelpers)
    ensures var r := LdStages(ld, ev, uri, h);
      && Keeps(ev, r.ev) && r.delta.errors == [] && r.ev.performers == ev.performers
      && (!Truthy(ld.startDate) ==> r == Throw(ev, NoStartDtMsg))
      && (Truthy(ld.startDate) && h.parseDate(ld.startDate.value).None? ==> r == Throw(ev, InvalidTimeValue))
      && (Truthy(ld.startDate) && h.parseDate(ld.startDate.value).Some? ==>
            r.ev.startDt == Some(h.parseDate(ld.startDate.value).value.iso))
  {
    var s1 := LdStart(ld, ev, h);
    LdStartKeeps(ld, ev, h);
    if s1.thrown.None? {
      var e := LdEndDate(ld, s1.ev, uri, h);
      var s2 := After(s1, e);
      LdEndDateKeeps(ld, s1.ev, uri, h);
      LdFillKeeps(ld, s2.ev, uri, h);
      if s2.thrown.None? {
        AfterQuiet(s1.ev, e, LdFill(ld, s2.ev, uri, h));
      }
      var r := After(s2, LdFill(ld, s2.ev, uri, h));
      KeepsTrans(ev, s1.ev, r.ev);
    }
  }

  /** The promoter, the venue information and the start-date fallback: one
      promoter more when there is a topline; the venue-information lines when
      the address is still empty; and `startDt` from `span.value-title` only
      when it is unset. */
  lemma ContainerHeadKeeps(c: Container, ev: CaptureEvent, h: TextHelpers)
    ensures var r := ContainerHead(c, ev, h);
      && Quiet(ev, r) && r.delta == NoDiag && r.ev.performers == ev.performers
      && r.ev.promoters == ev.promoters + (if c.toplineInfo.Some? then [PromoterInfo(c.toplineInfo.value, "", [])] else [])
      && r.ev.venueAddressLines ==
           (if c.venueInfo.Some? && |ev.venueAddressLines| == 0 then AsLines(VenueInfoLines(c.venueInfo.value)) else ev.venueAddressLines)
      && (ev.startDt.Some? ==> r.thrown.None?)
  {
    var e1 := Promoter(c, ev);
    if c.toplineInfo.Some? { KeepsPromoter(ev, PromoterInfo(c.toplineInfo.value, "", [])); } else { KeepsSame(ev); }
    var e2 := VenueInfo(c, e1);
    if e2 != e1 { KeepsAddress(e1, AsLines(VenueInfoLines(c.venueInfo.value))); } else { KeepsSame(e1); }
    KeepsTrans(ev, e1, e2);
    assert e2.promoters == e1.promoters && e2.performers == ev.performers;
    var r := StartFallback(c, e2, h);
    StartFallbackOnly(c, e2, h);
    if r.ev != e2 { KeepsFirstStart(e2, r.ev.startDt); } else { KeepsSame(e2); }
    KeepsTrans(ev, e2, r.ev);
  }

  /** The fallback changes `startDt` alone, logs nothing, and cannot throw once `startDt` is set. */
  lemma StartFallbackOnly(c: Container, e: CaptureEvent, h: TextHelpers)
    ensures var r := StartFallback(c, e, h);
      && r.ev == e.(startDt := r.ev.startDt) && r.delta == NoDiag && (e.startDt.Some? ==> r.thrown.None?)
  {
  }

  lemma DoorsKeeps(c: Container, ev: CaptureEvent, uri: string, h: TextHelpers)
    ensures Plain(ev, Doors(c, ev, uri, h))
  {
    if c.doors.Some? { KeepsDoors(ev, h.parseTime(Trim(c.doors.value))); } else { KeepsSame(ev); }
  }

  lemma DetailCostKeeps(c: Container, ev: CaptureEvent, uri: string, h: TextHelpers)
    ensures Plain(ev, DetailCost(c, ev, uri, h))
  {
    if !Truthy(ev.ticketCostRaw) && c.priceRange.Some? {
      var raw := Trim(c.priceRange.value);
      KeepsCost(ev, raw, h.parseTicketString(raw));
    } else {
      KeepsSame(ev);
    }
  }

  lemma SharesKeeps(c: Container, ev: CaptureEvent, uri: string)
    ensures Plain(ev, Shares(c, ev, uri))
  {
    var sh := Shares(c, ev, uri);
    KeepsShares(ev, sh.ev.facebookShareUri, sh.ev.twitterShareUri, sh.ev.iCalUri, sh.ev.gCalUri);
  }

  lemma ContainerMiddleKeeps(c: Container, ev: CaptureEvent, uri: string, h: TextHelpers)
    ensures Plain(ev, ContainerMiddle(c, ev, uri, h))
  {
    var s1 := Done(ev, MainPerformer(c, uri));
    KeepsSame(ev);
    var d := Doors(c, s1.ev, uri, h);
    DoorsKeeps(c, ev, uri, h);
    AfterPlain(ev, s1, d);
    var s2 := After(s1, d);
    DetailCostKeeps(c, s2.ev, uri, h);
    AfterPlain(ev, s2, DetailCost(c, s2.ev, uri, h));
    var s3 := After(s2, DetailCost(c, s2.ev, uri, h));
    SharesKeeps(c, s3.ev, uri);
    AfterPlain(ev, s3, Shares(c, s3.ev, uri));
  }

  /** The container stages keep what `KeepsStart` names and log no error. */
  lemma ContainerStagesKeep(c: Container, ev: CaptureEvent, uri: string, h: TextHelpers)
    ensures Quiet(ev, ContainerStages(c, ev, uri, h))
  {
    var s1 := ContainerHead(c, ev, h);
    ContainerHeadKeeps(c, ev, h);
    var m := ContainerMiddle(c, s1.ev, uri, h);
    ContainerMiddleKeeps(c, s1.ev, uri, h);
    AfterQuiet(ev, s1, m);
    var s2 := After(s1, m);
    var a := Artists(c.artistBoxes, MainName(c), s2.ev, uri);
    ArtistsFrame(c.artistBoxes, MainName(c), s2.ev, uri);
    KeepsPerformers(s2.ev, a.ev.performers);
    AfterQuiet(ev, s2, a);
    var s3 := After(s2, a);
    AddLabelsSpec(s3.ev.performers, c.labels);
    KeepsPerformers(s3.ev, AddLabels(s3.ev.performers, c.labels));
    AfterQuiet(ev, s3, Done(s3.ev.(performers := AddLabels(s3.ev.performers, c.labels)), NoDiag));
  }

  /** The structured-data fields: `minAge` becomes 0 exactly for an
      `all_ages` age range; a Place fills an empty address with its four
      lines, and an address already there stays; `offers.url` and
      `location.name` fill only an empty ticket link and venue; `image` is
      one more event image. */
  lemma LdFillSpec(ld: LdObject, ev: CaptureEvent, uri: string, h: TextHelpers)
    ensures var r := LdFill(ld, ev, uri, h).ev;
      var place := ld.location.Some? && ld.location.value.typ == Some("Place");
      && r.minAge == (if Truthy(ld.ageRange) && ld.typicalAgeRange == Some("all_ages") then Some(0) else ev.minAge)
      && (|ev.venueAddressLines| == 0 && place ==> r.venueAddressLines == PlaceLines(ld.location.value))
      && (|ev.venueAddressLines| > 0 || !place ==> r.venueAddressLines == ev.venueAddressLines)
      && (Truthy(ev.ticketUri) ==> r.ticketUri == ev.ticketUri)
      && (!Truthy(ev.ticketUri) && ld.offers.Some? && Truthy(ld.offers.value.url) ==> r.ticketUri == ld.offers.value.url)
      && (Truthy(ev.venueName) ==> r.venueName == ev.venueName)
      && (!Truthy(ev.venueName) && ld.location.Some? && Truthy(ld.location.value.name) ==> r.venueName == ld.location.value.name)
      && r.eventImageUris == ev.eventImageUris + (if Truthy(ld.image) then [ld.image.value] else [])
  {
    var e := LdImage(ld, ev, uri).ev;
    assert e.minAge == ev.minAge && e.venueAddressLines == ev.venueAddressLines;
    assert e.ticketUri == ev.ticketUri && e.venueName == ev.venueName;
    LdPlaceSpec(ld, e);
    LdDoorTimeOnly(ld, LdPlace(ld, e), h);
  }

  /** The four place stages, field by field. */
  lemma LdPlaceSpec(ld: LdObject, e: CaptureEvent)
    ensures var r := LdPlace(ld, e);
      var place := ld.location.Some? && ld.location.value.typ == Some("Place");
      && r.minAge == (if Truthy(ld.ageRange) && ld.typicalAgeRange == Some("all_ages") then Some(0) else e.minAge)
      && (|e.venueAddressLines| == 0 && place ==> r.venueAddressLines == PlaceLines(ld.location.value))
      && (|e.venueAddressLines| > 0 || !place ==> r.venueAddressLines == e.venueAddressLines)
      && (Truthy(e.ticketUri) ==> r.ticketUri == e.ticketUri)
      && (!Truthy(e.ticketUri) && ld.offers.Some? && Truthy(ld.offers.value.url) ==> r.ticketUri == ld.offers.value.url)
      && (Truthy(e.venueName) ==> r.venueName == e.venueName)
      && (!Truthy(e.venueName) && ld.location.Some? && Truthy(ld.location.value.name) ==> r.venueName == ld.location.value.name)
      && r.eventImageUris == e.eventImageUris
  {
    var e1 := AgeRange(ld, e);
    assert e1.ticketUri == e.ticketUri && e1.venueName == e.venueName && e1.venueAddressLines == e.venueAddressLines;
    var e2 := OfferTicket(ld, e1);
    assert e2.minAge == e1.minAge && e2.venueName == e1.venueName && e2.venueAddressLines == e1.venueAddressLines;
    var e3 := LocationVenue(ld, e2);
    assert e3.minAge == e2.minAge && e3.ticketUri == e2.ticketUri && e3.venueAddressLines == e2.venueAddressLines;
    var e4 := PlaceAddress(ld, e3);
    assert e4.minAge == e3.minAge && e4.ticketUri == e3.ticketUri && e4.venueName == e3.venueName;
  }

  /** The door-time stage changes the two door fields and nothing else. */
  lemma LdDoorTimeOnly(ld: LdObject, p: CaptureEvent, h: TextHelpers)
    ensures var r := LdDoorTime(ld, p, h);
      r == p.(doorTimeHours := r.doorTimeHours, doorTimeMin := r.doorTimeMin)
  {
  }

  /** The door time of the structured data: untouched without `doorTime`;
      NaN hours and minutes for a date `Date` cannot read; otherwise the
      local hours and the milliseconds (not the minutes) of that date. */
  lemma LdFillDoors(ld: LdObject, ev: CaptureEvent, uri: string, h: TextHelpers)
    ensures var r := LdFill(ld, ev, uri, h).ev;
      && (!Truthy(ld.doorTime) ==> r.doorTimeHours == ev.doorTimeHours && r.doorTimeMin == ev.doorTimeMin)
      && (Truthy(ld.doorTime) && h.parseDate(ld.doorTime.value).None? ==> r.doorTimeHours == Some(NaN) && r.doorTimeMin == Some(NaN))
      && (Truthy(ld.doorTime) && h.parseDate(ld.doorTime.value).Some? ==>
            var d := h.parseDate(ld.doorTime.value).value;
            r.doorTimeHours == Some(Num(d.hours)) && r.doorTimeMin == Some(Num(d.millis)))
  {
    var e := LdImage(ld, ev, uri).ev;
    assert e.doorTimeHours == ev.doorTimeHours && e.doorTimeMin == ev.doorTimeMin;
    LdPlaceDoors(ld, e);
  }

  lemma LdPlaceDoors(ld: LdObject, e: CaptureEvent)
    ensures LdPlace(ld, e).doorTimeHours == e.doorTimeHours && LdPlace(ld, e).doorTimeMin == e.doorTimeMin
  {
  }

  /** The container stages keep the performers they were given; without an
      exception every artist box was readable, and the performers are those
      the boxes add followed by the labels no performer had yet. */
  lemma ContainerPerformers(c: Container, ev: CaptureEvent, uri: string, h: TextHelpers)
    ensures var r := ContainerStages(c, ev, uri, h);
      && ev.performers <= r.ev.performers
      && (r.thrown.None? ==>
            && (forall i :: 0 <= i < |c.artistBoxes| ==> BoxReadable(c.artistBoxes[i]))
            && r.ev.performers == AddLabels(ev.performers + BoxAdds(c.artistBoxes, MainName(c)), c.labels))
  {
    ContainerStagesKeep(c, ev, uri, h);
    var s1 := ContainerHead(c, ev, h);
    ContainerHeadKeeps(c, ev, h);
    if s1.thrown.None? {
      var m := ContainerMiddle(c, s1.ev, uri, h);
      ContainerMiddleKeeps(c, s1.ev, uri, h);
      var s2 := After(s1, m);
      ArtistsThrow(c.artistBoxes, MainName(c), s2.ev, uri);
      if Artists(c.artistBoxes, MainName(c), s2.ev, uri).thrown.None? {
        ArtistsAdd(c.artistBoxes, MainName(c), s2.ev, uri);
      }
    }
  }

  /** The `try` block after the container check keeps what `Keeps` names and
      logs no error itself. */
  lemma EnrichKeeps(p: Page, ev: CaptureEvent, uri: string, h: TextHelpers)
    requires |p.containers| > 0
    ensures Keeps(ev, Enrich(p, ev, uri, h).ev) && Enrich(p, ev, uri, h).delta.errors == []
  {
    KeepsSame(ev);
    match SelectLdEvent(p.scripts)
    case Fail(_) =>
    case Ok(ld) =>
      var s := LdStages(ld, ev, uri, h);
      var cs := ContainerStages(p.containers[0], s.ev, uri, h);
      LdStagesKeep(ld, ev, uri, h);
      ContainerStagesKeep(p.containers[0], s.ev, uri, h);
      AfterKeepsQuiet(ev, s, cs);
  }

  lemma AfterKeepsQuiet(ev: CaptureEvent, s: Step, cs: Step)
    requires Keeps(ev, s.ev) && s.delta.errors == [] && Quiet(s.ev, cs)
    ensures Keeps(ev, After(s, cs).ev) && After(s, cs).delta.errors == []
  {
    if s.thrown.None? {
      KeepsTrans(ev, s.ev, cs.ev);
      assert After(s, cs).delta.errors == s.delta.errors + cs.delta.errors;
    }
  }

  // ---------------------------------------------------------------------------
  // The whole page

  lemma DetailUnfold(p: Page, ev0: CaptureEvent, deps: Deps, h: TextHelpers)
    requires |p.containers| > 0
    ensures DetailPage(p, ev0, deps, h) == Caught(Enrich(p, Snapshot(ev0, p.bodyText, p.bodyHtml), deps.curUri, h), deps.curUri)
  {
  }

  /** Whatever the page holds, the function keeps the list page's links,
      title and channel fields, never replaces a ticket link, venue, cost text
      or address the stub already had, only adds performers, images,
      promoters and address lines, and always records the page's text and HTML. */
  lemma DetailPreserves(p: Page, ev0: CaptureEvent, deps: Deps, h: TextHelpers)
    ensures var r := DetailPage(p, ev0, deps, h);
      && Keeps(Snapshot(ev0, p.bodyText, p.bodyHtml), r.ev)
      && r.ev.detailPageInnerText == Some(p.bodyText) && r.ev.detailPageHtml == Some(p.bodyHtml)
  {
    var ev := Snapshot(ev0, p.bodyText, p.bodyHtml);
    KeepsSame(ev);
    if |p.containers| > 0 {
      EnrichKeeps(p, ev, deps.curUri, h);
    }
  }

  /** A page logs at most one error: the missing container, or the message
      of the exception that ended its `try` block. No error means every
      stage ran. */
  lemma DetailErrors(p: Page, ev0: CaptureEvent, deps: Deps, h: TextHelpers)
    ensures var r := DetailPage(p, ev0, deps, h);
      && |r.delta.errors| <= 1
      && (|p.containers| == 0 ==> r == Enriched(Snapshot(ev0, p.bodyText, p.bodyHtml), ErrorEntry(NoContainerMsg(deps.curUri))))
      && (|p.containers| > 0 ==>
            var s := Enrich(p, Snapshot(ev0, p.bodyText, p.bodyHtml), deps.curUri, h);
            && (s.thrown.None? <==> r.delta.errors == [])
            && (s.thrown.Some? ==> r.delta.errors == [DetailException(s.thrown.value, deps.curUri)]))
  {
    if |p.containers| > 0 {
      EnrichKeeps(p, Snapshot(ev0, p.bodyText, p.bodyHtml), deps.curUri, h);
    }
  }

  /** Without an Event object, or with one that has no `startDate` or one
      `Date` cannot read, the page adds one exception entry and changes
      nothing but the page snapshot. */
  lemma DetailNoStart(p: Page, ev0: CaptureEvent, deps: Deps, h: TextHelpers)
    requires |p.containers| > 0
    ensures var r := DetailPage(p, ev0, deps, h);
      var snap := Snapshot(ev0, p.bodyText, p.bodyHtml);
      var ld := SelectLdEvent(p.scripts);
      && (ld.Fail? ==> r == Enriched(snap, ErrorEntry(DetailException(ld.msg, deps.curUri))))
      && (ld.Ok? && !Truthy(ld.value.startDate) ==> r == Enriched(snap, ErrorEntry(DetailException(NoStartDtMsg, deps.curUri))))
      && (ld.Ok? && Truthy(ld.value.startDate) && h.parseDate(ld.value.startDate.value).None? ==>
            r == Enriched(snap, ErrorEntry(DetailException(InvalidTimeValue, deps.curUri))))
  {
    var snap := Snapshot(ev0, p.bodyText, p.bodyHtml);
    match SelectLdEvent(p.scripts)
    case Fail(m) =>
      ThenNoDiag(ErrorEntry(DetailException(m, deps.curUri)));
    case Ok(ld) =>
      LdStagesKeep(ld, snap, deps.curUri, h);
      ThenNoDiag(ErrorEntry(DetailException(NoStartDtMsg, deps.curUri)));
      ThenNoDiag(ErrorEntry(DetailException(InvalidTimeValue, deps.curUri)));
  }

  /** A readable `startDate` is the event's start date: the container's
      `span.value-title` fallback never fires after it. */
  lemma DetailStartDt(p: Page, ev0: CaptureEvent, deps: Deps, h: TextHelpers)
    requires |p.containers| > 0 && SelectLdEvent(p.scripts).Ok? && Truthy(SelectLdEvent(p.scripts).value.startDate)
    requires h.parseDate(SelectLdEvent(p.scripts).value.startDate.value).Some?
    ensures DetailPage(p, ev0, deps, h).ev.startDt == Some(h.parseDate(SelectLdEvent(p.scripts).value.startDate.value).value.iso)
  {
    var ev := Snapshot(ev0, p.bodyText, p.bodyHtml);
    var ld := SelectLdEvent(p.scripts).value;
    var s := LdStages(ld, ev, deps.curUri, h);
    LdStagesKeep(ld, ev, deps.curUri, h);
    ContainerStagesKeep(p.containers[0], s.ev, deps.curUri, h);
  }

  /** What a detail page does to the performers, with "no exception" read
      off the log: no error. */
  predicate EnrichedPerformers(base: seq<CapturePerformer>, r: Enriched, c: Container)
  {
    && base <= r.ev.performers
    && (r.delta.errors == [] ==>
          && (forall i :: 0 <= i < |c.artistBoxes| ==> BoxReadable(c.artistBoxes[i]))
          && r.ev.performers == AddLabels(base + BoxAdds(c.artistBoxes, MainName(c)), c.labels))
  }

  /** The page keeps the performers it was given; when no error was logged
      it appended the artist boxes' performers, then each label no performer
      had yet. */
  lemma DetailPerformers(p: Page, ev0: CaptureEvent, deps: Deps, h: TextHelpers)
    requires |p.containers| > 0
    ensures EnrichedPerformers(ev0.performers, DetailPage(p, ev0, deps, h), p.containers[0])
  {
    var ev := Snapshot(ev0, p.bodyText, p.bodyHtml);
    DetailUnfold(p, ev0, deps, h);
    EnrichKeeps(p, ev, deps.curUri, h);
    match SelectLdEvent(p.scripts)
    case Fail(_) =>
    case Ok(ld) =>
      var s := LdStages(ld, ev, deps.curUri, h);
      LdStagesKeep(ld, ev, deps.curUri, h);
      ContainerPerformers(p.containers[0], s.ev, deps.curUri, h);
  }

  /** Only the first container is read. */
  lemma DetailFirstContainer(p: Page, ev0: CaptureEvent, deps: Deps, h: TextHelpers)
    requires |p.containers| > 0
    ensures DetailPage(p, ev0, deps, h) == DetailPage(p.(containers := p.containers[..1]), ev0, deps, h)
  {
  }
}
