/**
 * `parseCamelOrBroadberryDetPageBrwserFn`: a Broadberry detail page enriches
 * the stub its list page made. The page is read as data (`Page`); each
 * stage of the function's `try` block is a `Step` function below, run in
 * source order by `Enrich`, and `ParseDetailPage` runs the same stages on
 * the event and the log.
 */
module BroadberryDetail {
  import opened Js
  import opened Capture
  import opened LdJson
  import opened DetailPass
  import opened StartWindow

  // ---------------------------------------------------------------------------
  // The page, as far as the function reads it

  /** `img` inside `.eventImgBox`, with its `src` attribute. */
  datatype Img = Img(src: JsStr)

  /** `.eventImgBox` and the `img` inside it. */
  datatype ImgBox = ImgBox(img: Option<Img>)

  /** One `.singleEventDetails` box: `#eventTitle` and `.eventImgBox`. */
  datatype ArtistBox = ArtistBox(eventTitle: Option<Attr>, imgBox: Option<ImgBox>)

  /** The detail container: its `twitter:description` and `og:title` metas,
      `.eventStDate` (its inner text), `.eventDoorStartDate` and `.eventCost`
      (their first `span`) and the artist boxes. */
  datatype Container = Container(
    twitterDescription: Option<Attr>,
    eventStDate: Option<string>,
    ogTitle: Option<Attr>,
    eventDoorStartDate: Option<SpanHolder>,
    eventCost: Option<SpanHolder>,
    artistBoxes: seq<ArtistBox>)

  /** The document: body text and HTML, the ld+json scripts, and the
      containers the caller selected. */
  datatype Page = Page(bodyText: string, bodyHtml: string, scripts: seq<Script>, containers: seq<Container>)

  // ---------------------------------------------------------------------------
  // The structured-data stages

  /** With a `startDate`, the seven-day walk decides `startDt`; without one the page fails. */
  function LdStart(ld: LdObject, ev: CaptureEvent, today: Today, h: TextHelpers): Step
  {
    if Truthy(ld.startDate) then Done(ev.(startDt := WalkDecision(today, h.parseDate(ld.startDate.value))), NoDiag)
    else Throw(ev, NoStartDtMsg)
  }

  /** A Place location gives the address lines `[address, name]` if the stub has none. */
  function PlaceAddress(ld: LdObject, ev: CaptureEvent): CaptureEvent
  {
    if |ev.venueAddressLines| == 0 && ld.location.Some? && ld.location.value.typ == Some("Place")
    then ev.(venueAddressLines := [ld.location.value.address, ld.location.value.name]) else ev
  }

  /** The image, then the ticket link, venue and address, none of which throws. */
  function LdFill(ld: LdObject, ev: CaptureEvent, uri: string): Step
  {
    var s := LdImage(ld, ev, uri);
    Done(PlaceAddress(ld, LocationVenue(ld, OfferTicket(ld, s.ev))), s.delta)
  }

  /** The structured-data part of the `try` block. */
  function LdStages(ld: LdObject, ev: CaptureEvent, today: Today, uri: string, h: TextHelpers): Step
  {
    var s1 := LdStart(ld, ev, today, h);
    var s2 := After(s1, LdEndDate(ld, s1.ev, uri, h));
    After(s2, LdFill(ld, s2.ev, uri))
  }

  // ---------------------------------------------------------------------------
  // The container stages

  /** The `twitter:description` content is one more address line; a missing meta throws. */
  function VenueMeta(c: Container, ev: CaptureEvent): Step
  {
    match c.twitterDescription
    case None => Throw(ev, NullRead("getAttribute"))
    case Some(a) =>
      if Truthy(a.value) then Done(ev.(venueAddressLines := ev.venueAddressLines + [a.value]), NoDiag)
      else Done(ev, NoDiag)
  }

  /** `.eventStDate` sets `startDt` when the walk left none; an invalid date throws. */
  function StartFallback(c: Container, ev: CaptureEvent, h: TextHelpers): Step
  {
    if c.eventStDate.Some? && ev.startDt.None? then
      match ToIso(h, Trim(c.eventStDate.value))
      case Fail(m) => Throw(ev, m)
      case Ok(iso) => Done(ev.(startDt := Some(iso)), NoDiag)
    else Done(ev, NoDiag)
  }

  /** The trimmed `og:title` content, or '' when it is empty or missing. */
  function MainName(c: Container): string
  {
    if c.ogTitle.Some? && Truthy(c.ogTitle.value.value) then Trim(c.ogTitle.value.value.value) else ""
  }

  /** Reading the main performer changes no field; a missing meta throws. */
  function MainPerformer(c: Container, ev: CaptureEvent, uri: string): Step
  {
    match c.ogTitle
    case None => Throw(ev, NullRead("getAttribute"))
    case Some(a) =>
      if Truthy(a.value) then Done(ev, NoDiag)
      else Done(ev, WarningEntry("Expecting to find a main performer (meta[property=\"og:title\"]) for page: " + uri))
  }

  /** The door time from the first `span` of `.eventDoorStartDate`; a missing element throws. */
  function Doors(c: Container, ev: CaptureEvent, uri: string, h: TextHelpers): Step
  {
    match c.eventDoorStartDate
    case None => Throw(ev, NullRead("querySelector"))
    case Some(holder) =>
      match holder.span
      case Some(t) => Done(WithDoors(ev, h.parseTime(Trim(t))), NoDiag)
      case None => Done(ev, InfoEntry("No door info found in .eventDoorStartDate 1st child span for page: " + uri))
  }

  /** The cost from the first `span` of `.eventCost`, read only when the stub
      has no cost text; a missing element then throws. */
  function DetailCost(c: Container, ev: CaptureEvent, uri: string, h: TextHelpers): Step
  {
    if Truthy(ev.ticketCostRaw) then Done(ev, NoDiag)
    else
      match c.eventCost
      case None => Throw(ev, NullRead("querySelector"))
      case Some(holder) =>
        match holder.span
        case Some(t) =>
          var raw := Trim(t);
          Done(ev.(ticketCostRaw := Some(raw), ticketCost := h.parseTicketString(raw)), NoDiag)
        case None => Done(ev, InfoEntry("No ticket info found in .eventCost first child span for page: " + uri))
  }

  /** The performer a box with title `title` yields. */
  function BoxPerformer(title: string, main: string, img: Option<Img>): CapturePerformer
  {
    var name := Trim(title);
    CapturePerformer(name, [], if img.Some? then [img.value.src] else [], EqualCI(main, name), None)
  }

  /** One artist box: a missing `#eventTitle` or `.eventImgBox` throws; an
      empty title is a warning and no performer. */
  function ArtistBoxStep(box: ArtistBox, main: string, ev: CaptureEvent, uri: string): Step
  {
    match box.eventTitle
    case None => Throw(ev, NullRead("getAttribute"))
    case Some(a) =>
      if !Truthy(a.value) then Done(ev, WarningEntry("No Performer Name in page: " + uri))
      else
        match box.imgBox
        case None => Throw(ev, NullRead("querySelector"))
        case Some(imgBox) =>
          var p := BoxPerformer(a.value.value, main, imgBox.img);
          var d := if imgBox.img.Some? then NoDiag
                   else InfoEntry("No Performer image found in .eventImgBox first child img for " + p.performerName + " for page: " + uri);
          Done(ev.(performers := ev.performers + [p]), d)
  }

  /** The artist boxes in order, up to the first that throws. */
  function Artists(boxes: seq<ArtistBox>, main: string, ev: CaptureEvent, uri: string): Step
  {
    if boxes == [] then Done(ev, NoDiag)
    else
      var s := Artists(boxes[..|boxes| - 1], main, ev, uri);
      After(s, ArtistBoxStep(boxes[|boxes| - 1], main, s.ev, uri))
  }

  /** The container stages before the artist boxes. */
  function ContainerFields(c: Container, ev: CaptureEvent, uri: string, h: TextHelpers): Step
  {
    var s1 := VenueMeta(c, ev);
    var s2 := After(s1, StartFallback(c, s1.ev, h));
    var s3 := After(s2, MainPerformer(c, s2.ev, uri));
    var s4 := After(s3, Doors(c, s3.ev, uri, h));
    After(s4, DetailCost(c, s4.ev, uri, h))
  }

  /** The container part of the `try` block. */
  function ContainerStages(c: Container, ev: CaptureEvent, uri: string, h: TextHelpers): Step
  {
    var s := ContainerFields(c, ev, uri, h);
    After(s, Artists(c.artistBoxes, MainName(c), s.ev, uri))
  }

  /** The `try` block after the container check: the structured data is
      selected, then read, then the first container. */
  function Enrich(p: Page, ev: CaptureEvent, today: Today, uri: string, h: TextHelpers): Step
    requires |p.containers| > 0
  {
    match SelectLdEvent(p.scripts)
    case Fail(m) => Throw(ev, m)
    case Ok(ld) =>
      var s := LdStages(ld, ev, today, uri, h);
      After(s, ContainerStages(p.containers[0], s.ev, uri, h))
  }

  /** The whole function: snapshot, container check, stages, `catch`. */
  function DetailPage(p: Page, ev0: CaptureEvent, deps: Deps, today: Today, h: TextHelpers): Enriched
  {
    var ev := Snapshot(ev0, p.bodyText, p.bodyHtml);
    if |p.containers| == 0 then Enriched(ev, ErrorEntry(NoContainerMsg(deps.curUri)))
    else Caught(Enrich(p, ev, today, deps.curUri, h), deps.curUri)
  }

  // ---------------------------------------------------------------------------
  // The function, statement by statement

  method StartFromLd(ld: LdObject, ev0: CaptureEvent, today: Today, h: TextHelpers) returns (ev: CaptureEvent, thrown: Option<string>)
    ensures Step(ev, NoDiag, thrown) == LdStart(ld, ev0, today, h)
  {
    ev := ev0;
    if Truthy(ld.startDate) {
      var startDt := Walk(today, h.parseDate(ld.startDate.value), ev.startDt);
      ev := ev.(startDt := startDt);
      thrown := None;
    } else {
      thrown := Some(NoStartDtMsg);
    }
  }

  method FillFromLd(ld: LdObject, ev0: CaptureEvent, log: CaptureLog, uri: string) returns (ev: CaptureEvent)
    modifies log`warningLogs
    ensures Ran(LdFill(ld, ev0, uri), ev, None, log, old(log.Entries()))
  {
    ev := ev0;
    ThenNoDiag(log.Entries());
    if Truthy(ld.image) {
      ev := ev.(eventImageUris := ev.eventImageUris + [ld.image.value]);
    } else {
      log.Warning("No main image found from json+ld for page: " + uri);
    }
    ghost var e1 := ev;
    if ld.offers.Some? && Truthy(ld.offers.value.url) && !Truthy(ev.ticketUri) {
      ev := ev.(ticketUri := ld.offers.value.url);
    }
    assert ev == OfferTicket(ld, e1);
    ghost var e2 := ev;
    if ld.location.Some? && Truthy(ld.location.value.name) && !Truthy(ev.venueName) {
      ev := ev.(venueName := ld.location.value.name);
    }
    assert ev == LocationVenue(ld, e2);
    ghost var e3 := ev;
    if |ev.venueAddressLines| == 0 && ld.location.Some? && ld.location.value.typ == Some("Place") {
      ev := ev.(venueAddressLines := ev.venueAddressLines + [ld.location.value.address, ld.location.value.name]);
    }
    assert ev == PlaceAddress(ld, e3);
  }

  method ReadLd(ld: LdObject, ev0: CaptureEvent, log: CaptureLog, today: Today, uri: string, h: TextHelpers) returns (ev: CaptureEvent, thrown: Option<string>)
    modifies log`warningLogs
    ensures Ran(LdStages(ld, ev0, today, uri, h), ev, thrown, log, old(log.Entries()))
  {
    ghost var log0 := log.Entries();
    ThenNoDiag(log0);
    ev, thrown := StartFromLd(ld, ev0, today, h);
    ghost var s1 := LdStart(ld, ev0, today, h);
    if thrown.Some? {
      return;
    }
    ev, thrown := ReadEndDate(ld, ev, log, uri, h);
    ghost var s2 := After(s1, LdEndDate(ld, s1.ev, uri, h));
    ChainLog(log0, s1, LdEndDate(ld, s1.ev, uri, h));
    if thrown.Some? {
      return;
    }
    ev := FillFromLd(ld, ev, log, uri);
    ChainLog(log0, s2, LdFill(ld, s2.ev, uri));
  }

  method ReadVenueMeta(c: Container, ev0: CaptureEvent) returns (ev: CaptureEvent, thrown: Option<string>)
    ensures Step(ev, NoDiag, thrown) == VenueMeta(c, ev0)
  {
    ev, thrown := ev0, None;
    if c.twitterDescription.None? {
      thrown := Some(NullRead("getAttribute"));
      return;
    }
    var venueElemAttr := c.twitterDescription.value.value;
    if Truthy(venueElemAttr) {
      ev := ev.(venueAddressLines := ev.venueAddressLines + [venueElemAttr]);
    }
  }

  method ReadStartFallback(c: Container, ev0: CaptureEvent, h: TextHelpers) returns (ev: CaptureEvent, thrown: Option<string>)
    ensures Step(ev, NoDiag, thrown) == StartFallback(c, ev0, h)
  {
    ev, thrown := ev0, None;
    if c.eventStDate.Some? && ev.startDt.None? {
      var actualStartDt := h.parseDate(Trim(c.eventStDate.value));
      if actualStartDt.None? {
        thrown := Some(InvalidTimeValue);
      } else {
        ev := ev.(startDt := Some(actualStartDt.value.iso));
      }
    }
  }

  method ReadMainPerformer(c: Container, log: CaptureLog, uri: string, ghost ev: CaptureEvent) returns (mainPerformer: string, thrown: Option<string>)
    modifies log`warningLogs
    ensures mainPerformer == MainName(c)
    ensures Ran(MainPerformer(c, ev, uri), ev, thrown, log, old(log.Entries()))
  {
    mainPerformer, thrown := "", None;
    ThenNoDiag(log.Entries());
    if c.ogTitle.None? {
      thrown := Some(NullRead("getAttribute"));
      return;
    }
    var mainPermElemText := c.ogTitle.value.value;
    if Truthy(mainPermElemText) {
      mainPerformer := Trim(mainPermElemText.value);
    } else {
      log.Warning("Expecting to find a main performer (meta[property=\"og:title\"]) for page: " + uri);
    }
  }

  method ReadDoors(c: Container, ev0: CaptureEvent, log: CaptureLog, uri: string, h: TextHelpers) returns (ev: CaptureEvent, thrown: Option<string>)
    modifies log`infoLogs
    ensures Ran(Doors(c, ev0, uri, h), ev, thrown, log, old(log.Entries()))
  {
    ev, thrown := ev0, None;
    ThenNoDiag(log.Entries());
    if c.eventDoorStartDate.None? {
      thrown := Some(NullRead("querySelector"));
      return;
    }
    var doorElemSpan := c.eventDoorStartDate.value.span;
    if doorElemSpan.Some? {
      var t := h.parseTime(Trim(doorElemSpan.value));
      ev := ev.(rawDoorTimeStr := Some(t.0), doorTimeHours := Some(Num(t.1)), doorTimeMin := Some(Num(t.2)));
    } else {
      log.Info("No door info found in .eventDoorStartDate 1st child span for page: " + uri);
    }
  }

  method ReadDetailCost(c: Container, ev0: CaptureEvent, log: CaptureLog, uri: string, h: TextHelpers) returns (ev: CaptureEvent, thrown: Option<string>)
    modifies log`infoLogs
    ensures Ran(DetailCost(c, ev0, uri, h), ev, thrown, log, old(log.Entries()))
  {
    ev, thrown := ev0, None;
    ThenNoDiag(log.Entries());
    if !Truthy(ev.ticketCostRaw) {
      if c.eventCost.None? {
        thrown := Some(NullRead("querySelector"));
        return;
      }
      var tixPriceElemSpan := c.eventCost.value.span;
      if tixPriceElemSpan.Some? {
        var rawTixPriceTxt := Trim(tixPriceElemSpan.value);
        ev := ev.(ticketCostRaw := Some(rawTixPriceTxt));
        ev := ev.(ticketCost := h.parseTicketString(rawTixPriceTxt));
      } else {
        log.Info("No ticket info found in .eventCost first child span for page: " + uri);
      }
    }
  }

  method ReadArtistBox(box: ArtistBox, main: string, ev0: CaptureEvent, log: CaptureLog, uri: string) returns (ev: CaptureEvent, thrown: Option<string>)
    modifies log`warningLogs, log`infoLogs
    ensures Ran(ArtistBoxStep(box, main, ev0, uri), ev, thrown, log, old(log.Entries()))
  {
    ev, thrown := ev0, None;
    ThenNoDiag(log.Entries());
    if box.eventTitle.None? {
      thrown := Some(NullRead("getAttribute"));
      return;
    }
    var performerNameElemTitle := box.eventTitle.value.value;
    if Truthy(performerNameElemTitle) {
      var performerName := Trim(performerNameElemTitle.value);
      var isPrimaryPerformer := Lower(main) == Lower(performerName);
      if box.imgBox.None? {
        thrown := Some(NullRead("querySelector"));
        return;
      }
      var performerImageUris: seq<JsStr> := [];
      var bioImgElem := box.imgBox.value.img;
      if bioImgElem.Some? {
        performerImageUris := performerImageUris + [bioImgElem.value.src];
        assert performerImageUris == [bioImgElem.value.src];
      } else {
        log.Info("No Performer image found in .eventImgBox first child img for " + performerName + " for page: " + uri);
      }
      var curPerformer := CapturePerformer(performerName, [], performerImageUris, isPrimaryPerformer, None);
      ev := ev.(performers := ev.performers + [curPerformer]);
    } else {
      log.Warning("No Performer Name in page: " + uri);
    }
  }

  /** Once a box has thrown, later boxes change nothing. */
  lemma {:induction false} ArtistsSticky(boxes: seq<ArtistBox>, k: nat, main: string, ev: CaptureEvent, uri: string)
    requires k <= |boxes| && Artists(boxes[..k], main, ev, uri).thrown.Some?
    ensures Artists(boxes, main, ev, uri) == Artists(boxes[..k], main, ev, uri)
    decreases |boxes|
  {
    if k < |boxes| {
      var init := boxes[..|boxes| - 1];
      assert init[..k] == boxes[..k];
      ArtistsSticky(init, k, main, ev, uri);
    } else {
      assert boxes[..k] == boxes;
    }
  }

  method ReadArtists(boxes: seq<ArtistBox>, main: string, ev0: CaptureEvent, log: CaptureLog, uri: string) returns (ev: CaptureEvent, thrown: Option<string>)
    modifies log`warningLogs, log`infoLogs
    ensures Ran(Artists(boxes, main, ev0, uri), ev, thrown, log, old(log.Entries()))
  {
    ghost var log0 := log.Entries();
    ThenNoDiag(log0);
    ev, thrown := ev0, None;
    for i := 0 to |boxes|
      invariant Ran(Artists(boxes[..i], main, ev0, uri), ev, None, log, log0)
      invariant thrown.None?
    {
      ghost var s := Artists(boxes[..i], main, ev0, uri);
      assert boxes[..i + 1][..i] == boxes[..i];
      ev, thrown := ReadArtistBox(boxes[i], main, ev, log, uri);
      ChainLog(log0, s, ArtistBoxStep(boxes[i], main, s.ev, uri));
      if thrown.Some? {
        ArtistsSticky(boxes, i + 1, main, ev0, uri);
        return;
      }
    }
    assert boxes[..|boxes|] == boxes;
  }

  method ReadContainerFields(c: Container, ev0: CaptureEvent, log: CaptureLog, uri: string, h: TextHelpers)
    returns (ev: CaptureEvent, thrown: Option<string>, mainPerformer: string)
    modifies log`warningLogs, log`infoLogs
    ensures Ran(ContainerFields(c, ev0, uri, h), ev, thrown, log, old(log.Entries()))
    ensures thrown.None? ==> mainPerformer == MainName(c)
  {
    ghost var log0 := log.Entries();
    ThenNoDiag(log0);
    mainPerformer := "";
    ev, thrown := ReadVenueMeta(c, ev0);
    ghost var s := VenueMeta(c, ev0);
    if thrown.Some? {
      return;
    }
    ev, thrown := ReadStartFallback(c, ev, h);
    ChainLog(log0, s, StartFallback(c, s.ev, h));
    s := After(s, StartFallback(c, s.ev, h));
    if thrown.Some? {
      return;
    }
    mainPerformer, thrown := ReadMainPerformer(c, log, uri, ev);
    ChainLog(log0, s, MainPerformer(c, s.ev, uri));
    s := After(s, MainPerformer(c, s.ev, uri));
    if thrown.Some? {
      return;
    }
    ev, thrown := ReadDoors(c, ev, log, uri, h);
    ChainLog(log0, s, Doors(c, s.ev, uri, h));
    s := After(s, Doors(c, s.ev, uri, h));
    if thrown.Some? {
      return;
    }
    ev, thrown := ReadDetailCost(c, ev, log, uri, h);
    ChainLog(log0, s, DetailCost(c, s.ev, uri, h));
  }

  method ReadContainer(c: Container, ev0: CaptureEvent, log: CaptureLog, uri: string, h: TextHelpers) returns (ev: CaptureEvent, thrown: Option<string>)
    modifies log`warningLogs, log`infoLogs
    ensures Ran(ContainerStages(c, ev0, uri, h), ev, thrown, log, old(log.Entries()))
  {
    ghost var log0 := log.Entries();
    var mainPerformer;
    ev, thrown, mainPerformer := ReadContainerFields(c, ev0, log, uri, h);
    ghost var s := ContainerFields(c, ev0, uri, h);
    if thrown.Some? {
      return;
    }
    ev, thrown := ReadArtists(c.artistBoxes, mainPerformer, ev, log, uri);
    ChainLog(log0, s, Artists(c.artistBoxes, MainName(c), s.ev, uri));
  }

  /** The `try` block after the container check. */
  method EnrichPage(p: Page, ev0: CaptureEvent, log: CaptureLog, today: Today, uri: string, h: TextHelpers) returns (ev: CaptureEvent, thrown: Option<string>)
    requires |p.containers| > 0
    modifies log`warningLogs, log`infoLogs
    ensures Ran(Enrich(p, ev0, today, uri, h), ev, thrown, log, old(log.Entries()))
  {
    ghost var log0 := log.Entries();
    ThenNoDiag(log0);
    ev := ev0;
    var ld := SelectLdEvent(p.scripts);
    if ld.Fail? {
      thrown := Some(ld.msg);
      return;
    }
    ev, thrown := ReadLd(ld.value, ev, log, today, uri, h);
    ghost var s := LdStages(ld.value, ev0, today, uri, h);
    if thrown.Some? {
      return;
    }
    ev, thrown := ReadContainer(p.containers[0], ev, log, uri, h);
    ChainLog(log0, s, ContainerStages(p.containers[0], s.ev, uri, h));
  }

  /** `parseCamelOrBroadberryDetPageBrwserFn(detailCtx, curEvent, log, deps)`:
      the event it returns and the entries it adds are those of `DetailPage`. */
  method ParseDetailPage(p: Page, curEvent: CaptureEvent, log: CaptureLog, deps: Deps, today: Today, h: TextHelpers) returns (ev: CaptureEvent)
    modifies log`errorLogs, log`warningLogs, log`infoLogs
    ensures ev == DetailPage(p, curEvent, deps, today, h).ev
    ensures log.Entries() == old(log.Entries()).Then(DetailPage(p, curEvent, deps, today, h).delta)
  {
    ev := Snapshot(curEvent, p.bodyText, p.bodyHtml);
    if |p.containers| == 0 {
      log.Error(NoContainerMsg(deps.curUri));
      return;
    }
    ghost var log0 := log.Entries();
    var thrown;
    ev, thrown := EnrichPage(p, ev, log, today, deps.curUri, h);
    if thrown.Some? {
      log.Error(DetailException(thrown.value, deps.curUri));
      ThenAssoc(log0, Enrich(p, Snapshot(curEvent, p.bodyText, p.bodyHtml), today, deps.curUri, h).delta, ErrorEntry(DetailException(thrown.value, deps.curUri)));
    }
  }

  // ---------------------------------------------------------------------------
  // Properties

  /** The trimmed titles of the boxes that have a non-empty one, in order. */
  function Titles(boxes: seq<ArtistBox>): seq<string>
  {
    if boxes == [] then []
    else
      var b := boxes[|boxes| - 1];
      Titles(boxes[..|boxes| - 1])
        + if b.eventTitle.Some? && Truthy(b.eventTitle.value.value) then [Trim(b.eventTitle.value.value.value)] else []
  }

  /** A box is read without an exception when it has `#eventTitle` and,
      if the title is not empty, `.eventImgBox`. */
  predicate BoxReadable(b: ArtistBox)
  {
    b.eventTitle.Some? && (Truthy(b.eventTitle.value.value) ==> b.imgBox.Some?)
  }

  /** The performer a readable box adds, if any. */
  function BoxAdds(b: ArtistBox, main: string): seq<CapturePerformer>
    requires BoxReadable(b)
  {
    if Truthy(b.eventTitle.value.value) then [BoxPerformer(b.eventTitle.value.value.value, main, b.imgBox.value.img)] else []
  }

  /** One box changes only the performers: it throws unless it is readable,
      leaving the event as it was, and otherwise adds what `BoxAdds` says. */
  lemma BoxStepSpec(b: ArtistBox, main: string, ev: CaptureEvent, uri: string)
    ensures var r := ArtistBoxStep(b, main, ev, uri);
      && r.ev == ev.(performers := r.ev.performers)
      && (r.thrown.None? <==> BoxReadable(b))
      && (r.thrown.Some? ==> r.ev == ev)
      && (r.thrown.None? ==> r.ev.performers == ev.performers + BoxAdds(b, main))
  {
  }

  /** The artist boxes change only the performers, which they extend; every
      performer they add has no links and is primary exactly when its name
      equals the main performer's up to case. */
  lemma {:induction false} ArtistsFrame(boxes: seq<ArtistBox>, main: string, ev: CaptureEvent, uri: string)
    ensures var r := Artists(boxes, main, ev, uri);
      && r.ev == ev.(performers := r.ev.performers)
      && ev.performers <= r.ev.performers
      && forall k :: |ev.performers| <= k < |r.ev.performers| ==>
           r.ev.performers[k].isPrimaryPerformer == EqualCI(main, r.ev.performers[k].performerName)
           && r.ev.performers[k].performerUris == []
  {
    if boxes != [] {
      var init := boxes[..|boxes| - 1];
      ArtistsFrame(init, main, ev, uri);
      var s := Artists(init, main, ev, uri);
      BoxStepSpec(boxes[|boxes| - 1], main, s.ev, uri);
    }
  }

  /** The boxes throw exactly when one of them is not readable. */
  lemma {:induction false} ArtistsThrow(boxes: seq<ArtistBox>, main: string, ev: CaptureEvent, uri: string)
    ensures Artists(boxes, main, ev, uri).thrown.None? <==> forall i :: 0 <= i < |boxes| ==> BoxReadable(boxes[i])
  {
    if boxes != [] {
      var init := boxes[..|boxes| - 1];
      ArtistsThrow(init, main, ev, uri);
      assert forall i :: 0 <= i < |init| ==> init[i] == boxes[i];
      BoxStepSpec(boxes[|boxes| - 1], main, Artists(init, main, ev, uri).ev, uri);
    }
  }

  /** Without an exception every titled box adds one performer, in box
      order, named by its trimmed title. */
  lemma {:induction false} ArtistsNames(boxes: seq<ArtistBox>, main: string, ev: CaptureEvent, uri: string)
    requires Artists(boxes, main, ev, uri).thrown.None?
    ensures var r := Artists(boxes, main, ev, uri);
      && |r.ev.performers| == |ev.performers| + |Titles(boxes)|
      && forall k :: 0 <= k < |Titles(boxes)| ==> r.ev.performers[|ev.performers| + k].performerName == Titles(boxes)[k]
  {
    if boxes != [] {
      var init := boxes[..|boxes| - 1];
      var s := Artists(init, main, ev, uri);
      assert s.thrown.None?;
      ArtistsNames(init, main, ev, uri);
      BoxStepSpec(boxes[|boxes| - 1], main, s.ev, uri);
    }
  }

  /** What every stage leaves alone: the list page's links, title and
      channel fields; a ticket link, venue or cost text the stub already has;
      and the performers, images and address lines, which only grow. */
  predicate Keeps(a: CaptureEvent, b: CaptureEvent)
  {
    && b.tenantName == a.tenantName && b.channelName == a.channelName
    && b.channelImage == a.channelImage && b.channelBaseUri == a.channelBaseUri
    && b.eventUris == a.eventUris && b.eventTitle == a.eventTitle
    && b.venueContactInfo == a.venueContactInfo && b.minAge == a.minAge
    && b.promoters == a.promoters && b.neighborhood == a.neighborhood
    && b.facebookShareUri == a.facebookShareUri && b.twitterShareUri == a.twitterShareUri
    && b.iCalUri == a.iCalUri && b.gCalUri == a.gCalUri
    && b.detailPageInnerText == a.detailPageInnerText && b.detailPageHtml == a.detailPageHtml
    && (Truthy(a.ticketUri) ==> b.ticketUri == a.ticketUri)
    && (Truthy(a.venueName) ==> b.venueName == a.venueName)
    && (Truthy(a.ticketCostRaw) ==> b.ticketCostRaw == a.ticketCostRaw && b.ticketCost == a.ticketCost)
    && a.performers <= b.performers && a.eventImageUris <= b.eventImageUris
    && a.venueAddressLines <= b.venueAddressLines
  }

  lemma KeepsTrans(a: CaptureEvent, b: CaptureEvent, c: CaptureEvent)
    requires Keeps(a, b) && Keeps(b, c)
    ensures Keeps(a, c)
  {
  }

  lemma AfterKeeps(ev: CaptureEvent, a: Step, b: Step)
    requires Keeps(ev, a.ev) && Keeps(a.ev, b.ev)
    ensures Keeps(ev, After(a, b).ev)
  {
    if a.thrown.None? {
      KeepsTrans(ev, a.ev, b.ev);
    }
  }

  // One lemma per kind of update the stages make, so that each stage
  // lemma below only has to pick its case.

  lemma KeepsSame(ev: CaptureEvent)
    ensures KeepsDates(ev, ev)
  {
  }

  lemma KeepsNewStart(ev: CaptureEvent, d: Option<IsoString>)
    ensures Keeps(ev, ev.(startDt := d)) && ev.(startDt := d).endDt == ev.endDt
  {
  }

  lemma KeepsNewEnd(ev: CaptureEvent, d: Option<IsoString>)
    ensures Keeps(ev, ev.(endDt := d)) && ev.(endDt := d).startDt == ev.startDt
  {
  }

  lemma KeepsImage(ev: CaptureEvent, image: string)
    ensures KeepsDates(ev, ev.(eventImageUris := ev.eventImageUris + [image]))
  {
  }

  lemma KeepsTicketUri(ev: CaptureEvent, u: JsStr)
    requires !Truthy(ev.ticketUri)
    ensures KeepsDates(ev, ev.(ticketUri := u))
  {
  }

  lemma KeepsVenueName(ev: CaptureEvent, n: JsStr)
    requires !Truthy(ev.venueName)
    ensures KeepsDates(ev, ev.(venueName := n))
  {
  }

  lemma KeepsAddress(ev: CaptureEvent, lines: seq<JsStr>)
    ensures KeepsDates(ev, ev.(venueAddressLines := ev.venueAddressLines + lines))
  {
  }

  lemma KeepsDoors(ev: CaptureEvent, t: (string, int, int))
    ensures KeepsDates(ev, WithDoors(ev, t))
  {
  }

  lemma KeepsCost(ev: CaptureEvent, raw: string, amts: seq<TicketAmtInfo>)
    requires !Truthy(ev.ticketCostRaw)
    ensures KeepsDates(ev, ev.(ticketCostRaw := Some(raw), ticketCost := amts))
  {
  }

  lemma LdStartKeeps(ld: LdObject, ev: CaptureEvent, today: Today, h: TextHelpers)
    ensures Keeps(ev, LdStart(ld, ev, today, h).ev) && LdStart(ld, ev, today, h).ev.performers == ev.performers
  {
    if Truthy(ld.startDate) {
      KeepsNewStart(ev, WalkDecision(today, h.parseDate(ld.startDate.value)));
    } else {
      KeepsSame(ev);
    }
  }

  lemma LdEndDateKeeps(ld: LdObject, ev: CaptureEvent, uri: string, h: TextHelpers)
    ensures Keeps(ev, LdEndDate(ld, ev, uri, h).ev)
    ensures LdEndDate(ld, ev, uri, h).ev.startDt == ev.startDt
    ensures LdEndDate(ld, ev, uri, h).ev.performers == ev.performers
  {
    if Truthy(ld.endDate) && h.parseDate(ld.endDate.value).Some? {
      KeepsNewEnd(ev, Some(h.parseDate(ld.endDate.value).value.iso));
    } else {
      KeepsSame(ev);
    }
  }

  lemma LdFillKeeps(ld: LdObject, ev: CaptureEvent, uri: string)
    ensures KeepsDates(ev, LdFill(ld, ev, uri).ev) && LdFill(ld, ev, uri).ev.performers == ev.performers
  {
    var e1 := LdImage(ld, ev, uri).ev;
    if Truthy(ld.image) { KeepsImage(ev, ld.image.value); } else { KeepsSame(ev); }
    var e2 := OfferTicket(ld, e1);
    if e2 != e1 { KeepsTicketUri(e1, ld.offers.value.url); } else { KeepsSame(e1); }
    KeepsDatesTrans(ev, e1, e2);
    var e3 := LocationVenue(ld, e2);
    if e3 != e2 { KeepsVenueName(e2, ld.location.value.name); } else { KeepsSame(e2); }
    KeepsDatesTrans(ev, e2, e3);
    var e4 := PlaceAddress(ld, e3);
    if e4 != e3 {
      KeepsAddress(e3, [ld.location.value.address, ld.location.value.name]);
      assert e3.venueAddressLines + [ld.location.value.address, ld.location.value.name] == [ld.location.value.address, ld.location.value.name];
    } else {
      KeepsSame(e3);
    }
    KeepsDatesTrans(ev, e3, e4);
  }

  /** The structured-data stages keep what `Keeps` names; the walk decides
      `startDt` whenever there is a `startDate`. */
  lemma LdStagesKeep(ld: LdObject, ev: CaptureEvent, today: Today, uri: string, h: TextHelpers)
    ensures Keeps(ev, LdStages(ld, ev, today, uri, h).ev)
    ensures LdStages(ld, ev, today, uri, h).ev.performers == ev.performers
    ensures Truthy(ld.startDate) ==> LdStages(ld, ev, today, uri, h).ev.startDt == WalkDecision(today, h.parseDate(ld.startDate.value))
  {
    var s1 := LdStart(ld, ev, today, h);
    var s2 := After(s1, LdEndDate(ld, s1.ev, uri, h));
    LdStartKeeps(ld, ev, today, h);
    LdEndDateKeeps(ld, s1.ev, uri, h);
    AfterKeeps(ev, s1, LdEndDate(ld, s1.ev, uri, h));
    LdFillKeeps(ld, s2.ev, uri);
    AfterKeeps(ev, s2, LdFill(ld, s2.ev, uri));
  }

  /** Every container stage but the fallback keeps both dates. */
  predicate KeepsDates(a: CaptureEvent, b: CaptureEvent)
  {
    Keeps(a, b) && b.startDt == a.startDt && b.endDt == a.endDt
  }

  lemma VenueMetaKeeps(c: Container, ev: CaptureEvent)
    ensures KeepsDates(ev, VenueMeta(c, ev).ev) && VenueMeta(c, ev).ev.performers == ev.performers
    ensures VenueMeta(c, ev).delta.errors == []
  {
    if c.twitterDescription.Some? && Truthy(c.twitterDescription.value.value) {
      KeepsAddress(ev, [c.twitterDescription.value.value]);
    } else {
      KeepsSame(ev);
    }
  }

  lemma StartFallbackKeeps(c: Container, ev: CaptureEvent, h: TextHelpers)
    ensures var r := StartFallback(c, ev, h);
      && Keeps(ev, r.ev) && r.ev.endDt == ev.endDt && r.ev.performers == ev.performers
      && r.delta.errors == []
      && (ev.startDt.Some? || c.eventStDate.None? ==> r.ev.startDt == ev.startDt)
      && (ev.startDt.None? && c.eventStDate.Some? && r.thrown.None? ==>
            h.parseDate(Trim(c.eventStDate.value)).Some?
            && r.ev.startDt == Some(h.parseDate(Trim(c.eventStDate.value)).value.iso))
  {
    if c.eventStDate.Some? && ev.startDt.None? && h.parseDate(Trim(c.eventStDate.value)).Some? {
      KeepsNewStart(ev, Some(h.parseDate(Trim(c.eventStDate.value)).value.iso));
    } else {
      KeepsSame(ev);
    }
  }

  lemma MainPerformerKeeps(c: Container, ev: CaptureEvent, uri: string)
    ensures MainPerformer(c, ev, uri).ev == ev && MainPerformer(c, ev, uri).delta.errors == []
  {
  }

  lemma DoorsKeeps(c: Container, ev: CaptureEvent, uri: string, h: TextHelpers)
    ensures KeepsDates(ev, Doors(c, ev, uri, h).ev) && Doors(c, ev, uri, h).ev.performers == ev.performers
    ensures Doors(c, ev, uri, h).delta.errors == []
  {
    if c.eventDoorStartDate.Some? && c.eventDoorStartDate.value.span.Some? {
      KeepsDoors(ev, h.parseTime(Trim(c.eventDoorStartDate.value.span.value)));
    } else {
      KeepsSame(ev);
    }
  }

  lemma DetailCostKeeps(c: Container, ev: CaptureEvent, uri: string, h: TextHelpers)
    ensures KeepsDates(ev, DetailCost(c, ev, uri, h).ev) && DetailCost(c, ev, uri, h).ev.performers == ev.performers
    ensures DetailCost(c, ev, uri, h).delta.errors == []
  {
    if !Truthy(ev.ticketCostRaw) && c.eventCost.Some? && c.eventCost.value.span.Some? {
      var raw := Trim(c.eventCost.value.span.value);
      KeepsCost(ev, raw, h.parseTicketString(raw));
    } else {
      KeepsSame(ev);
    }
  }

  lemma ArtistsKeep(boxes: seq<ArtistBox>, main: string, ev: CaptureEvent, uri: string)
    ensures KeepsDates(ev, Artists(boxes, main, ev, uri).ev)
  {
    ArtistsFrame(boxes, main, ev, uri);
  }

  lemma AfterKeepsDates(a: Step, b: Step)
    requires KeepsDates(a.ev, b.ev)
    ensures KeepsDates(a.ev, After(a, b).ev)
  {
  }

  lemma KeepsDatesTrans(a: CaptureEvent, b: CaptureEvent, c: CaptureEvent)
    requires KeepsDates(a, b) && KeepsDates(b, c)
    ensures KeepsDates(a, c)
  {
    KeepsTrans(a, b, c);
  }

  /** The stages after the fallback keep both dates and the performers. */
  lemma LateFieldsKeep(c: Container, s2: Step, uri: string, h: TextHelpers)
    ensures var s3 := After(s2, MainPerformer(c, s2.ev, uri));
      var s4 := After(s3, Doors(c, s3.ev, uri, h));
      var r := After(s4, DetailCost(c, s4.ev, uri, h));
      && KeepsDates(s2.ev, r.ev) && r.ev.performers == s2.ev.performers
      && (s2.delta.errors == [] ==> r.delta.errors == [])
  {
    var s3 := After(s2, MainPerformer(c, s2.ev, uri));
    var s4 := After(s3, Doors(c, s3.ev, uri, h));
    MainPerformerKeeps(c, s2.ev, uri);
    DoorsKeeps(c, s3.ev, uri, h);
    AfterKeepsDates(s3, Doors(c, s3.ev, uri, h));
    DetailCostKeeps(c, s4.ev, uri, h);
    AfterKeepsDates(s4, DetailCost(c, s4.ev, uri, h));
    KeepsDatesTrans(s3.ev, s4.ev, After(s4, DetailCost(c, s4.ev, uri, h)).ev);
    if s2.delta.errors == [] {
      AfterNoErrors(s2, MainPerformer(c, s2.ev, uri));
      AfterNoErrors(s3, Doors(c, s3.ev, uri, h));
      AfterNoErrors(s4, DetailCost(c, s4.ev, uri, h));
    }
  }

  /** The container fields keep what `Keeps` names, the end date and the
      performers; they set `startDt` only from `.eventStDate` and only when it is unset. */
  lemma ContainerFieldsKeep(c: Container, ev: CaptureEvent, uri: string, h: TextHelpers)
    ensures var r := ContainerFields(c, ev, uri, h);
      && Keeps(ev, r.ev) && r.ev.endDt == ev.endDt && r.ev.performers == ev.performers
      && r.delta.errors == []
      && (ev.startDt.Some? || c.eventStDate.None? ==> r.ev.startDt == ev.startDt)
      && (ev.startDt.None? && c.eventStDate.Some? && r.thrown.None? ==>
            h.parseDate(Trim(c.eventStDate.value)).Some?
            && r.ev.startDt == Some(h.parseDate(Trim(c.eventStDate.value)).value.iso))
  {
    var s1 := VenueMeta(c, ev);
    var s2 := After(s1, StartFallback(c, s1.ev, h));
    VenueMetaKeeps(c, ev);
    StartFallbackKeeps(c, s1.ev, h);
    AfterNoErrors(s1, StartFallback(c, s1.ev, h));
    LateFieldsKeep(c, s2, uri, h);
    if s1.thrown.None? {
      KeepsTrans(ev, s1.ev, s2.ev);
    }
    KeepsTrans(ev, s2.ev, ContainerFields(c, ev, uri, h).ev);
  }

  /** The container stages keep what `Keeps` names and the end date; they
      set `startDt` only from `.eventStDate` and only when it is unset. */
  lemma ContainerStagesKeep(c: Container, ev: CaptureEvent, uri: string, h: TextHelpers)
    ensures var r := ContainerStages(c, ev, uri, h);
      && Keeps(ev, r.ev) && r.ev.endDt == ev.endDt
      && (ev.startDt.Some? || c.eventStDate.None? ==> r.ev.startDt == ev.startDt)
      && (ev.startDt.None? && c.eventStDate.Some? && r.thrown.None? ==>
            h.parseDate(Trim(c.eventStDate.value)).Some?
            && r.ev.startDt == Some(h.parseDate(Trim(c.eventStDate.value)).value.iso))
  {
    var s := ContainerFields(c, ev, uri, h);
    ContainerFieldsKeep(c, ev, uri, h);
    ArtistsKeep(c.artistBoxes, MainName(c), s.ev, uri);
    AfterKeeps(ev, s, Artists(c.artistBoxes, MainName(c), s.ev, uri));
  }

  /** Run `r`, started with the performers `base`, only adds performers;
      each is primary exactly when it matches `main` up to case; and without
      an exception they are named `titles`, in order. */
  predicate AddsPerformers(base: seq<CapturePerformer>, r: Step, main: string, titles: seq<string>)
  {
    && base <= r.ev.performers
    && (forall k :: |base| <= k < |r.ev.performers| ==>
          r.ev.performers[k].isPrimaryPerformer == EqualCI(main, r.ev.performers[k].performerName))
    && (r.thrown.None? ==>
          && |r.ev.performers| == |base| + |titles|
          && forall k :: 0 <= k < |titles| ==> r.ev.performers[|base| + k].performerName == titles[k])
  }

  /** A run that leaves the performers alone, followed by one that adds them. */
  lemma AfterAdds(s: Step, t: Step, ev: CaptureEvent, main: string, titles: seq<string>)
    requires s.ev.performers == ev.performers && AddsPerformers(s.ev.performers, t, main, titles)
    ensures AddsPerformers(ev.performers, After(s, t), main, titles)
  {
  }

  lemma ArtistsAdd(boxes: seq<ArtistBox>, main: string, ev: CaptureEvent, uri: string)
    ensures AddsPerformers(ev.performers, Artists(boxes, main, ev, uri), main, Titles(boxes))
  {
    ArtistsFrame(boxes, main, ev, uri);
    if Artists(boxes, main, ev, uri).thrown.None? {
      ArtistsNames(boxes, main, ev, uri);
    }
  }

  /** The container stages: each performer added is primary exactly when it
      matches the `og:title` name up to case; without an exception every
      titled artist box adds one, in order. */
  lemma ContainerPerformers(c: Container, ev: CaptureEvent, uri: string, h: TextHelpers)
    ensures AddsPerformers(ev.performers, ContainerStages(c, ev, uri, h), MainName(c), Titles(c.artistBoxes))
  {
    var s := ContainerFields(c, ev, uri, h);
    ContainerFieldsKeep(c, ev, uri, h);
    ArtistsAdd(c.artistBoxes, MainName(c), s.ev, uri);
    AfterAdds(s, Artists(c.artistBoxes, MainName(c), s.ev, uri), ev, MainName(c), Titles(c.artistBoxes));
  }

  // ---------------------------------------------------------------------------
  // The whole page

  /** Whatever the page holds, the function keeps the list page's links,
      title and channel fields, never replaces a ticket link, venue or cost
      text the stub already had, only adds performers, images and address
      lines, and always records the page's text and HTML. */
  lemma DetailPreserves(p: Page, ev0: CaptureEvent, deps: Deps, today: Today, h: TextHelpers)
    ensures var r := DetailPage(p, ev0, deps, today, h);
      && Keeps(Snapshot(ev0, p.bodyText, p.bodyHtml), r.ev)
      && r.ev.detailPageInnerText == Some(p.bodyText) && r.ev.detailPageHtml == Some(p.bodyHtml)
  {
    var ev := Snapshot(ev0, p.bodyText, p.bodyHtml);
    KeepsSame(ev);
    if |p.containers| > 0 {
      match SelectLdEvent(p.scripts)
      case Fail(_) =>
      case Ok(ld) =>
        var s := LdStages(ld, ev, today, deps.curUri, h);
        LdStagesKeep(ld, ev, today, deps.curUri, h);
        ContainerStagesKeep(p.containers[0], s.ev, deps.curUri, h);
        AfterKeeps(ev, s, ContainerStages(p.containers[0], s.ev, deps.curUri, h));
    }
  }

  /** Without an Event object, or with one that has no `startDate`, the page
      adds one exception entry and changes nothing but the page snapshot. */
  lemma DetailNoStart(p: Page, ev0: CaptureEvent, deps: Deps, today: Today, h: TextHelpers)
    requires |p.containers| > 0
    ensures var r := DetailPage(p, ev0, deps, today, h);
      var snap := Snapshot(ev0, p.bodyText, p.bodyHtml);
      && (SelectLdEvent(p.scripts).Fail? ==>
            r == Enriched(snap, ErrorEntry(DetailException(SelectLdEvent(p.scripts).msg, deps.curUri))))
      && (SelectLdEvent(p.scripts).Ok? && !Truthy(SelectLdEvent(p.scripts).value.startDate) ==>
            r == Enriched(snap, ErrorEntry(DetailException(NoStartDtMsg, deps.curUri))))
  {
    ThenNoDiag(ErrorEntry(DetailException(NoStartDtMsg, deps.curUri)));
    if SelectLdEvent(p.scripts).Fail? {
      ThenNoDiag(ErrorEntry(DetailException(SelectLdEvent(p.scripts).msg, deps.curUri)));
    }
  }

  // The stages log warnings and infos only; errors come from the `catch`
  // and the container check alone.

  lemma AfterNoErrors(a: Step, b: Step)
    requires a.delta.errors == [] && b.delta.errors == []
    ensures After(a, b).delta.errors == []
  {
  }

  lemma {:induction false} ArtistsNoErrors(boxes: seq<ArtistBox>, main: string, ev: CaptureEvent, uri: string)
    ensures Artists(boxes, main, ev, uri).delta.errors == []
  {
    if boxes != [] {
      var s := Artists(boxes[..|boxes| - 1], main, ev, uri);
      ArtistsNoErrors(boxes[..|boxes| - 1], main, ev, uri);
      AfterNoErrors(s, ArtistBoxStep(boxes[|boxes| - 1], main, s.ev, uri));
    }
  }

  lemma LdStagesNoErrors(ld: LdObject, ev: CaptureEvent, today: Today, uri: string, h: TextHelpers)
    ensures LdStages(ld, ev, today, uri, h).delta.errors == []
  {
    var s1 := LdStart(ld, ev, today, h);
    AfterNoErrors(s1, LdEndDate(ld, s1.ev, uri, h));
    var s2 := After(s1, LdEndDate(ld, s1.ev, uri, h));
    AfterNoErrors(s2, LdFill(ld, s2.ev, uri));
  }

  lemma ContainerStagesNoErrors(c: Container, ev: CaptureEvent, uri: string, h: TextHelpers)
    ensures ContainerStages(c, ev, uri, h).delta.errors == []
  {
    var s := ContainerFields(c, ev, uri, h);
    ContainerFieldsKeep(c, ev, uri, h);
    ArtistsNoErrors(c.artistBoxes, MainName(c), s.ev, uri);
    AfterNoErrors(s, Artists(c.artistBoxes, MainName(c), s.ev, uri));
  }

  lemma EnrichNoErrors(p: Page, ev: CaptureEvent, today: Today, uri: string, h: TextHelpers)
    requires |p.containers| > 0
    ensures Enrich(p, ev, today, uri, h).delta.errors == []
  {
    match SelectLdEvent(p.scripts)
    case Fail(_) =>
    case Ok(ld) =>
      var s := LdStages(ld, ev, today, uri, h);
      LdStagesNoErrors(ld, ev, today, uri, h);
      ContainerStagesNoErrors(p.containers[0], s.ev, uri, h);
      AfterNoErrors(s, ContainerStages(p.containers[0], s.ev, uri, h));
  }

  /** A page logs at most one error: the missing container, or the message
      of the exception that ended its `try` block. No error means every
      stage ran. */
  lemma DetailErrors(p: Page, ev0: CaptureEvent, deps: Deps, today: Today, h: TextHelpers)
    ensures var r := DetailPage(p, ev0, deps, today, h);
      && |r.delta.errors| <= 1
      && (|p.containers| == 0 ==> r == Enriched(Snapshot(ev0, p.bodyText, p.bodyHtml), ErrorEntry(NoContainerMsg(deps.curUri))))
      && (|p.containers| > 0 ==>
            var s := Enrich(p, Snapshot(ev0, p.bodyText, p.bodyHtml), today, deps.curUri, h);
            && (s.thrown.None? <==> r.delta.errors == [])
            && (s.thrown.Some? ==> r.delta.errors == [DetailException(s.thrown.value, deps.curUri)]))
  {
    if |p.containers| > 0 {
      EnrichNoErrors(p, Snapshot(ev0, p.bodyText, p.bodyHtml), today, deps.curUri, h);
    }
  }

  /** The start date: the walk's decision stands when it keeps the date;
      when it clears it, `.eventStDate` sets it if the container has one,
      and otherwise it stays cleared. */
  lemma DetailStartDt(p: Page, ev0: CaptureEvent, deps: Deps, today: Today, h: TextHelpers)
    requires |p.containers| > 0 && SelectLdEvent(p.scripts).Ok? && Truthy(SelectLdEvent(p.scripts).value.startDate)
    ensures var r := DetailPage(p, ev0, deps, today, h);
      var w := WalkDecision(today, h.parseDate(SelectLdEvent(p.scripts).value.startDate.value));
      var c := p.containers[0];
      && (w.Some? ==> r.ev.startDt == w)
      && (w.None? && c.eventStDate.None? ==> r.ev.startDt.None?)
      && (w.None? && c.eventStDate.Some? && r.delta.errors == [] ==>
            h.parseDate(Trim(c.eventStDate.value)).Some?
            && r.ev.startDt == Some(h.parseDate(Trim(c.eventStDate.value)).value.iso))
  {
    var ev := Snapshot(ev0, p.bodyText, p.bodyHtml);
    var ld := SelectLdEvent(p.scripts).value;
    var s := LdStages(ld, ev, today, deps.curUri, h);
    LdStagesKeep(ld, ev, today, deps.curUri, h);
    ContainerStagesKeep(p.containers[0], s.ev, deps.curUri, h);
    DetailErrors(p, ev0, deps, today, h);
  }

  lemma EnrichAdds(p: Page, ev: CaptureEvent, today: Today, uri: string, h: TextHelpers)
    requires |p.containers| > 0 && SelectLdEvent(p.scripts).Ok?
    ensures AddsPerformers(ev.performers, Enrich(p, ev, today, uri, h), MainName(p.containers[0]), Titles(p.containers[0].artistBoxes))
  {
    var ld := SelectLdEvent(p.scripts).value;
    var c := p.containers[0];
    var s := LdStages(ld, ev, today, uri, h);
    LdStagesKeep(ld, ev, today, uri, h);
    ContainerPerformers(c, s.ev, uri, h);
    AfterAdds(s, ContainerStages(c, s.ev, uri, h), ev, MainName(c), Titles(c.artistBoxes));
  }

  /** What a detail page does to the performers, as `AddsPerformers` says it
      about a run of stages, with "no exception" read off the log: no error. */
  predicate EnrichedAdds(base: seq<CapturePerformer>, r: Enriched, main: string, titles: seq<string>)
  {
    && base <= r.ev.performers
    && (forall k :: |base| <= k < |r.ev.performers| ==>
          r.ev.performers[k].isPrimaryPerformer == EqualCI(main, r.ev.performers[k].performerName))
    && (r.delta.errors == [] ==>
          && |r.ev.performers| == |base| + |titles|
          && forall k :: 0 <= k < |titles| ==> r.ev.performers[|base| + k].performerName == titles[k])
  }

  /** The page keeps the performers it was given and appends one per artist
      box, primary exactly when it matches the og:title name up to case; when
      no error was logged they are the box titles, trimmed, in page order. */
  lemma DetailPerformers(p: Page, ev0: CaptureEvent, deps: Deps, today: Today, h: TextHelpers)
    requires |p.containers| > 0 && SelectLdEvent(p.scripts).Ok?
    ensures EnrichedAdds(ev0.performers, DetailPage(p, ev0, deps, today, h), MainName(p.containers[0]), Titles(p.containers[0].artistBoxes))
  {
    var ev := Snapshot(ev0, p.bodyText, p.bodyHtml);
    var c := p.containers[0];
    DetailUnfold(p, ev0, deps, today, h);
    EnrichAdds(p, ev, today, deps.curUri, h);
    EnrichNoErrors(p, ev, today, deps.curUri, h);
    CaughtAdds(Enrich(p, ev, today, deps.curUri, h), ev0.performers, MainName(c), Titles(c.artistBoxes), deps.curUri);
  }

  lemma DetailUnfold(p: Page, ev0: CaptureEvent, deps: Deps, today: Today, h: TextHelpers)
    requires |p.containers| > 0
    ensures DetailPage(p, ev0, deps, today, h) == Caught(Enrich(p, Snapshot(ev0, p.bodyText, p.bodyHtml), today, deps.curUri, h), deps.curUri)
  {
  }

  /** The `catch` adds an error exactly when something was thrown. */
  lemma CaughtAdds(s: Step, base: seq<CapturePerformer>, main: string, titles: seq<string>, uri: string)
    requires AddsPerformers(base, s, main, titles) && s.delta.errors == []
    ensures EnrichedAdds(base, Caught(s, uri), main, titles)
  {
  }

  /** Only the first container is read. */
  lemma DetailFirstContainer(p: Page, ev0: CaptureEvent, deps: Deps, today: Today, h: TextHelpers)
    requires |p.containers| > 0
    ensures DetailPage(p, ev0, deps, today, h) == DetailPage(p.(containers := p.containers[..1]), ev0, deps, today, h)
  {
  }
}
