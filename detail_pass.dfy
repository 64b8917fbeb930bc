/**
 * What the two detail-page functions share: one `try` around a run of
 * stages, each of which may change the event, append log entries, or throw;
 * the `catch` adds one error naming the page. A stage that throws keeps the
 * changes made before it, because the event object is changed in place.
 */
module DetailPass {
  import opened Js
  import opened Capture
  import opened LdJson

  /** What a stage (or a run of stages) does: the event afterwards, the log
      entries it appended, and the message of the exception it threw, if any. */
  datatype Step = Step(ev: CaptureEvent, delta: Diag, thrown: Option<string>)

  /** A stage that changes `ev` and logs `delta` without throwing. */
  function Done(ev: CaptureEvent, delta: Diag): Step
  {
    Step(ev, delta, None)
  }

  /** A stage that throws `msg` before changing anything. */
  function Throw(ev: CaptureEvent, msg: string): Step
  {
    Step(ev, NoDiag, Some(msg))
  }

  /** Stage `b`, run on the event `a` left, after `a`. */
  function Chain(a: Step, b: Step): Step
  {
    Step(b.ev, a.delta.Then(b.delta), b.thrown)
  }

  /** Stage `b` runs only when `a` did not throw; otherwise the statements
      after the `throw` are skipped and `a` is what happened. */
  function After(a: Step, b: Step): (r: Step)
    ensures a.thrown.Some? ==> r == a
    ensures a.thrown.None? ==> r.ev == b.ev && r.thrown == b.thrown
  {
    if a.thrown.Some? then a else Chain(a, b)
  }

  /** The event `ev`, the exception `thrown` and the log are what stage `s`
      leaves when run on a log holding `log0`. */
  ghost predicate Ran(s: Step, ev: CaptureEvent, thrown: Option<string>, log: CaptureLog, log0: Diag)
    reads log
  {
    ev == s.ev && thrown == s.thrown && log.Entries() == log0.Then(s.delta)
  }

  /** What a detail page returns: the event and the log entries appended. */
  datatype Enriched = Enriched(ev: CaptureEvent, delta: Diag)

  function DetailException(msg: string, uri: string): string
  {
    "Capture Detail Page Exception Thrown: " + msg + " at " + uri
  }

  function NoContainerMsg(uri: string): string
  {
    "Could not find Detail Container Element for page: " + uri
  }

  const NoStartDtMsg := "Could not extract startDt from json+ld event data (@Type=='Event')"

  /** The `catch`: an exception adds one error entry and nothing else. */
  function Caught(s: Step, uri: string): (r: Enriched)
    ensures r.ev == s.ev
    ensures s.thrown.None? ==> r.delta == s.delta
    ensures s.thrown.Some? ==> r.delta.errors == s.delta.errors + [DetailException(s.thrown.value, uri)]
    ensures r.delta.warnings == s.delta.warnings && r.delta.infos == s.delta.infos
  {
    if s.thrown.Some? then Enriched(s.ev, s.delta.Then(ErrorEntry(DetailException(s.thrown.value, uri))))
    else Enriched(s.ev, s.delta)
  }

  /** `curEvent.detailPageInnerText = document.body.innerText` and the same for the HTML. */
  function Snapshot(ev: CaptureEvent, bodyText: string, bodyHtml: string): CaptureEvent
  {
    ev.(detailPageInnerText := Some(bodyText), detailPageHtml := Some(bodyHtml))
  }

  lemma ChainAssoc(a: Step, b: Step, c: Step)
    ensures Chain(Chain(a, b), c) == Chain(a, Chain(b, c))
  {
    ThenAssoc(a.delta, b.delta, c.delta);
  }

  /** The log the caller holds after a chain of stages is the log before
      followed by each stage's entries. */
  lemma ChainLog(log0: Diag, a: Step, b: Step)
    ensures log0.Then(a.delta).Then(b.delta) == log0.Then(Chain(a, b).delta)
  {
    ThenAssoc(log0, a.delta, b.delta);
  }

  // ---------------------------------------------------------------------------
  // Small page elements both sites read

  /** An element read through `getAttribute(name)`: null when the attribute is missing. */
  datatype Attr = Attr(value: JsStr)

  /** An element whose first `span` child is looked up. */
  datatype SpanHolder = SpanHolder(span: Option<string>)

  /** The `[raw, hours, min]` that `parseTime` returns, written into the event. */
  function WithDoors(ev: CaptureEvent, t: (string, int, int)): CaptureEvent
  {
    ev.(rawDoorTimeStr := Some(t.0), doorTimeHours := Some(Num(t.1)), doorTimeMin := Some(Num(t.2)))
  }

  // ---------------------------------------------------------------------------
  // Structured-data stages written the same way in both site families

  /** `endDate` goes through `toISOString`, which throws on an invalid date. */
  function LdEndDate(ld: LdObject, ev: CaptureEvent, uri: string, h: TextHelpers): Step
  {
    if Truthy(ld.endDate) then
      match ToIso(h, ld.endDate.value)
      case Fail(m) => Throw(ev, m)
      case Ok(iso) => Done(ev.(endDt := Some(iso)), NoDiag)
    else Done(ev, WarningEntry("No endDt from json+ld for page: " + uri))
  }

  /** The `image` is one more event image; its absence a warning. */
  function LdImage(ld: LdObject, ev: CaptureEvent, uri: string): Step
  {
    if Truthy(ld.image) then Done(ev.(eventImageUris := ev.eventImageUris + [ld.image.value]), NoDiag)
    else Done(ev, WarningEntry("No main image found from json+ld for page: " + uri))
  }

  /** `offers.url` becomes the ticket link if the stub has none. */
  function OfferTicket(ld: LdObject, ev: CaptureEvent): CaptureEvent
  {
    if ld.offers.Some? && Truthy(ld.offers.value.url) && !Truthy(ev.ticketUri) then ev.(ticketUri := ld.offers.value.url) else ev
  }

  /** `location.name` becomes the venue if the stub has none. */
  function LocationVenue(ld: LdObject, ev: CaptureEvent): CaptureEvent
  {
    if ld.location.Some? && Truthy(ld.location.value.name) && !Truthy(ev.venueName) then ev.(venueName := ld.location.value.name) else ev
  }

  method ReadEndDate(ld: LdObject, ev0: CaptureEvent, log: CaptureLog, uri: string, h: TextHelpers) returns (ev: CaptureEvent, thrown: Option<string>)
    modifies log`warningLogs
    ensures Ran(LdEndDate(ld, ev0, uri, h), ev, thrown, log, old(log.Entries()))
  {
    ev, thrown := ev0, None;
    ThenNoDiag(log.Entries());
    if Truthy(ld.endDate) {
      match h.parseDate(ld.endDate.value)
      case None =>
        thrown := Some(InvalidTimeValue);
      case Some(d) =>
        ev := ev.(endDt := Some(d.iso));
    } else {
      log.Warning("No endDt from json+ld for page: " + uri);
    }
  }
}
