/**
 * The list page of the Camel/Broadberry family (`parseMCamelOrBroadberryPgBrwserFn`)
 * and its post-filter (`removeNoDateEvents`). Each queried node of an event
 * block is an Option (the node is missing or not) and each `querySelectorAll`
 * a sequence.
 */
module BroadberryList {
  import opened Js
  import opened Capture
  import opened ListPass
  import PostFilter

  /** The `a:first-child` link of a `.rhp-event-thumb`: its href and title attributes. */
  datatype ThumbLink = ThumbLink(href: JsStr, title: JsStr)

  datatype Thumb = Thumb(link: Option<ThumbLink>)

  /** `.rhp-event-cta` and its `a:first-child`. */
  datatype CtaAnchor = CtaAnchor(href: JsStr)
  datatype Cta = Cta(anchor: Option<CtaAnchor>)

  /** `.eventCost` and the inner text of its `span`. */
  datatype CostNode = CostNode(span: Option<string>)

  /** One node the event selector matched inside a day. */
  datatype EventBlock = EventBlock(thumbs: seq<Thumb>, cta: Option<Cta>, cost: Option<CostNode>)

  /** What a thumb contributes: its trimmed href and trimmed title. */
  datatype Headliner = Headliner(uri: string, name: string)

  function ReadThumb(t: Thumb): Result<Headliner>
  {
    match t.link
    case None => Fail(NullRead("getAttribute"))
    case Some(l) =>
      if l.href.None? then Fail(NullRead("trim"))
      else if l.title.None? then Fail(NullRead("trim"))
      else Ok(Headliner(Trim(l.href.value), Trim(l.title.value)))
  }

  /** The links the headliners push, each marked as from the capture source. */
  function HeadlinerLinks(hs: seq<Headliner>): (r: seq<UriType>)
    ensures |r| == |hs|
  {
    if hs == [] then [] else HeadlinerLinks(hs[..|hs| - 1]) + [UriType(Some(hs[|hs| - 1].uri), true)]
  }

  function Names(hs: seq<Headliner>): (r: seq<string>)
    ensures |r| == |hs|
  {
    if hs == [] then [] else Names(hs[..|hs| - 1]) + [hs[|hs| - 1].name]
  }

  /** The ticket link: the event's `ticketUri` and its links afterwards. */
  datatype Ticket = Ticket(ticketUri: JsStr, uris: seq<UriType>)

  function ReadTicket(cta: Option<Cta>, uris: seq<UriType>): Result<Ticket>
  {
    match cta
    case None => Fail(NullRead("querySelector"))
    case Some(c) =>
      match c.anchor
      case None => Ok(Ticket(None, uris))
      case Some(a) =>
        if a.href.None? then Fail(NullRead("trim"))
        else
          var t := Some(Trim(a.href.value));
          Ok(Ticket(t, if HasUri(uris, t) then uris else uris + [UriType(t, false)]))
  }

  /** `parseInt(text.replace("$", ""))`. */
  function DollarAmount(text: string): Number
  {
    ParseInt(RemoveFirst(text, "$"))
  }

  /** The inner `try` on `.eventCost span`: the raw cost, the amounts pushed,
      and the error its `catch` logs. */
  datatype Cost = Cost(raw: string, amts: seq<TicketAmtInfo>, error: Option<string>)

  function ReadCost(c: Option<CostNode>): Cost
  {
    if c.None? || c.value.span.None? then
      var e := if c.None? then NullRead("querySelector") else NullRead("innerText");
      Cost("Free", [TicketAmtInfo(Num(0), "")], Some("No Ticket Cost: " + e))
    else
      var text := Trim(c.value.span.value);
      Cost(text, [TicketAmtInfo(DollarAmount(text), "")], None)
  }

  /** What one event block yields. */
  function Stub(b: EventBlock, deps: Deps): BlockOutcome
  {
    match ReadEach(b.thumbs, ReadThumb)
    case Fail(m) => Thrown(m)
    case Ok(hs) =>
      match ReadTicket(b.cta, AddUris([], HeadlinerLinks(hs)))
      case Fail(m) => Thrown(m)
      case Ok(t) =>
        var c := ReadCost(b.cost);
        Built(NewStub(deps).(eventUris := t.uris, eventTitle := Join(Names(hs), " / "),
                             ticketUri := t.ticketUri, ticketCostRaw := Some(c.raw),
                             ticketCost := c.amts),
              c.error)
  }

  /** The outcome of each block, in order. */
  function Outcomes(bs: seq<EventBlock>, deps: Deps): (os: seq<BlockOutcome>)
    ensures |os| == |bs|
  {
    if bs == [] then [] else Outcomes(bs[..|bs| - 1], deps) + [Stub(bs[|bs| - 1], deps)]
  }

  lemma {:induction false} OutcomesAppend(a: seq<EventBlock>, b: seq<EventBlock>, deps: Deps)
    ensures Outcomes(a + b, deps) == Outcomes(a, deps) + Outcomes(b, deps)
    decreases |b|
  {
    if b == [] {
      assert a + b == a;
    } else {
      assert (a + b)[..|a + b| - 1] == a + b[..|b| - 1];
      OutcomesAppend(a, b[..|b| - 1], deps);
    }
  }

  /** The headliner loop: the links pushed and the title segments, or the
      exception of the first thumb that throws. */
  method CollectHeadliners(thumbs: seq<Thumb>) returns (r: Result<seq<Headliner>>, uris: seq<UriType>, titleSegments: seq<string>)
    ensures r == ReadEach(thumbs, ReadThumb)
    ensures r.Ok? ==> uris == AddUris([], HeadlinerLinks(r.value)) && titleSegments == Names(r.value)
  {
    uris, titleSegments := [], [];
    var hs: seq<Headliner> := [];
    for i := 0 to |thumbs|
      invariant ReadEach(thumbs[..i], ReadThumb) == Ok(hs)
      invariant uris == AddUris([], HeadlinerLinks(hs))
      invariant titleSegments == Names(hs)
    {
      var link := thumbs[i].link;
      if link.None? || link.value.href.None? || link.value.title.None? {
        HeadlinerThrows(thumbs, i, hs);
        r := Fail(ReadThumb(thumbs[i]).msg);
        return;
      }
      var eventUri := UriType(Some(Trim(link.value.href.value)), true);
      var performerName := Trim(link.value.title.value);
      if !HasUri(uris, eventUri.uri) {
        uris := uris + [eventUri];
      }
      // `testExist` reads `.performerName` off a string, which is undefined,
      // so `findIndex` never finds the name and the segment is always pushed.
      titleSegments := titleSegments + [performerName];
      HeadlinerNext(thumbs, i, hs);
      hs := hs + [Headliner(eventUri.uri.value, performerName)];
    }
    assert thumbs[..|thumbs|] == thumbs;
    r := Ok(hs);
  }

  /** One more thumb read: the specification functions grow by that thumb. */
  lemma HeadlinerNext(thumbs: seq<Thumb>, i: nat, hs: seq<Headliner>)
    requires i < |thumbs| && ReadEach(thumbs[..i], ReadThumb) == Ok(hs) && ReadThumb(thumbs[i]).Ok?
    ensures var h := ReadThumb(thumbs[i]).value;
      && ReadEach(thumbs[..i + 1], ReadThumb) == Ok(hs + [h])
      && AddUris([], HeadlinerLinks(hs + [h])) == AddUri(AddUris([], HeadlinerLinks(hs)), UriType(Some(h.uri), true))
      && Names(hs + [h]) == Names(hs) + [h.name]
  {
    var h := ReadThumb(thumbs[i]).value;
    assert thumbs[..i + 1][..i] == thumbs[..i];
    assert (hs + [h])[..|hs|] == hs;
    assert HeadlinerLinks(hs + [h])[..|hs|] == HeadlinerLinks(hs);
  }

  /** The first thumb that throws decides the outcome of the loop. */
  lemma HeadlinerThrows(thumbs: seq<Thumb>, i: nat, hs: seq<Headliner>)
    requires i < |thumbs| && ReadEach(thumbs[..i], ReadThumb) == Ok(hs) && ReadThumb(thumbs[i]).Fail?
    ensures ReadEach(thumbs, ReadThumb) == Fail(ReadThumb(thumbs[i]).msg)
  {
    ReadEachOk(thumbs[..i], ReadThumb);
    assert forall j :: 0 <= j < i ==> thumbs[..i][j] == thumbs[j];
    ReadEachFirstFailure(thumbs, ReadThumb, i);
  }

  /** The ticket link of an event block, `.rhp-event-cta a:first-child`. */
  method ReadTicketLink(cta: Option<Cta>, uris: seq<UriType>) returns (r: Result<Ticket>)
    ensures r == ReadTicket(cta, uris)
  {
    if cta.None? {
      return Fail(NullRead("querySelector"));
    }
    var ticketsA := cta.value.anchor;
    var ticketUri: JsStr := None;
    var eventUris := uris;
    if ticketsA.Some? {
      if ticketsA.value.href.None? {
        return Fail(NullRead("trim"));
      }
      ticketUri := Some(Trim(ticketsA.value.href.value));
      if !HasUri(eventUris, ticketUri) {
        eventUris := eventUris + [UriType(ticketUri, false)];
      }
    }
    r := Ok(Ticket(ticketUri, eventUris));
  }

  /** The inner `try` on `.eventCost span`. */
  method ReadCostNode(c: Option<CostNode>) returns (cost: Cost)
    ensures cost == ReadCost(c)
  {
    var ticketCost: seq<TicketAmtInfo> := [];
    if c.None? {
      ticketCost := ticketCost + [TicketAmtInfo(Num(0), "")];
      cost := Cost("Free", ticketCost, Some("No Ticket Cost: " + NullRead("querySelector")));
    } else if c.value.span.None? {
      ticketCost := ticketCost + [TicketAmtInfo(Num(0), "")];
      cost := Cost("Free", ticketCost, Some("No Ticket Cost: " + NullRead("innerText")));
    } else {
      var ticketCostText := Trim(c.value.span.value);
      var ticketCostRaw := ticketCostText;
      ticketCostText := RemoveFirst(ticketCostText, "$");
      var ticketCostNum := ParseInt(ticketCostText);
      ticketCost := ticketCost + [TicketAmtInfo(ticketCostNum, "")];
      cost := Cost(ticketCostRaw, ticketCost, None);
    }
  }

  /** The body of the event loop, up to `results.events.push(event)`. */
  method BuildStub(b: EventBlock, deps: Deps) returns (out: BlockOutcome)
    ensures out == Stub(b, deps)
  {
    var hs, uris, titleSegments := CollectHeadliners(b.thumbs);
    if hs.Fail? {
      return Thrown(hs.msg);
    }
    var eventTitle := Join(titleSegments, " / ");
    var ticket := ReadTicketLink(b.cta, uris);
    if ticket.Fail? {
      return Thrown(ticket.msg);
    }
    var cost := ReadCostNode(b.cost);
    var event := NewStub(deps).(eventUris := ticket.value.uris, eventTitle := eventTitle,
                                ticketUri := ticket.value.ticketUri, ticketCostRaw := Some(cost.raw),
                                ticketCost := cost.amts);
    out := Built(event, cost.error);
  }

  /** The event loop of one day, after the blocks `done`; it stops at the first block that throws. */
  method ParseDay(ghost done: seq<EventBlock>, eventsCtx: seq<EventBlock>, results: CaptureResults, log: CaptureLog,
                  deps: Deps, ghost events0: seq<CaptureEvent>, ghost log0: Diag) returns (thrown: bool)
    requires !Scan(Outcomes(done, deps)).aborted
    requires Reflects(results, log, events0, log0, Scan(Outcomes(done, deps)))
    modifies results, log`errorLogs
    ensures thrown == Scan(Outcomes(done + eventsCtx, deps)).aborted
    ensures Reflects(results, log, events0, log0, Scan(Outcomes(done + eventsCtx, deps)))
  {
    assert done + eventsCtx[..0] == done;
    for e := 0 to |eventsCtx|
      invariant !Scan(Outcomes(done + eventsCtx[..e], deps)).aborted
      invariant Reflects(results, log, events0, log0, Scan(Outcomes(done + eventsCtx[..e], deps)))
    {
      SliceNext(done, eventsCtx, e);
      ScanOutcomesNext(done + eventsCtx[..e], eventsCtx[e], deps);
      var out := BuildStub(eventsCtx[e], deps);
      thrown := Record(out, results, log, events0, log0, Scan(Outcomes(done + eventsCtx[..e], deps)));
      if thrown {
        AbortedPrefix(done + eventsCtx[..e + 1], eventsCtx[e + 1..], deps);
        return;
      }
    }
    assert eventsCtx[..|eventsCtx|] == eventsCtx;
    thrown := false;
  }

  /** `parseMCamelOrBroadberryPgBrwserFn(daysCtx, results, log, deps)`. */
  method ParseListPage(days: seq<seq<EventBlock>>, results: CaptureResults, log: CaptureLog, deps: Deps)
    modifies results, log`errorLogs
    ensures results.events == old(results.events) + Scan(Outcomes(Flatten(days), deps)).events
    ensures log.Entries() == old(log.Entries()).Then(Diag(Scan(Outcomes(Flatten(days), deps)).errors, [], []))
  {
    ghost var events0, log0 := results.events, log.Entries();
    assert events0 + [] == events0;
    ThenNoDiag(log0);
    for d := 0 to |days|
      invariant !Scan(Outcomes(Flatten(days[..d]), deps)).aborted
      invariant Reflects(results, log, events0, log0, Scan(Outcomes(Flatten(days[..d]), deps)))
    {
      FlattenNext(days, d);
      var thrown := ParseDay(Flatten(days[..d]), days[d], results, log, deps, events0, log0);
      if thrown {
        AbortedDays(days, d, deps);
        return;
      }
    }
    assert days[..|days|] == days;
  }

  /** Once a block of day `d` has thrown, the later days change nothing. */
  lemma AbortedDays(days: seq<seq<EventBlock>>, d: nat, deps: Deps)
    requires d < |days| && Scan(Outcomes(Flatten(days[..d + 1]), deps)).aborted
    ensures Scan(Outcomes(Flatten(days), deps)) == Scan(Outcomes(Flatten(days[..d + 1]), deps))
  {
    assert days[..d + 1] + days[d + 1..] == days;
    FlattenAppend(days[..d + 1], days[d + 1..]);
    AbortedPrefix(Flatten(days[..d + 1]), Flatten(days[d + 1..]), deps);
  }

  /** Once a block has thrown, the blocks after it change nothing. */
  lemma AbortedPrefix(bs: seq<EventBlock>, rest: seq<EventBlock>, deps: Deps)
    requires Scan(Outcomes(bs, deps)).aborted
    ensures Scan(Outcomes(bs + rest, deps)) == Scan(Outcomes(bs, deps))
  {
    OutcomesAppend(bs, rest, deps);
    ScanAbortedSticky(Outcomes(bs, deps), Outcomes(rest, deps));
  }

  lemma ScanOutcomesNext(bs: seq<EventBlock>, b: EventBlock, deps: Deps)
    ensures Scan(Outcomes(bs + [b], deps)) == Step(Scan(Outcomes(bs, deps)), Stub(b, deps))
  {
    assert (bs + [b])[..|bs|] == bs;
    ScanNext(Outcomes(bs, deps), Stub(b, deps));
  }

  /** `removeNoDateEvents(results, log)`. */
  method RemoveNoDateEvents(results: CaptureResults, log: CaptureLog)
    modifies results, log`errorLogs
    ensures results.events == PostFilter.Kept(old(results.events))
    ensures log.Entries() == old(log.Entries()).Then(Diag(PostFilter.Removals(old(results.events)), [], []))
  {
    PostFilter.RemoveDatelessEvents(results, log);
  }

  // ---------------------------------------------------------------------------
  // What a stub holds

  /** The trimmed `title` attribute of a thumb's link, or "" when it has none. */
  function ThumbTitle(t: Thumb): string
  {
    if t.link.Some? && t.link.value.title.Some? then Trim(t.link.value.title.value) else ""
  }

  /** The trimmed `href` of a thumb's link, or null when it has none. */
  function ThumbHref(t: Thumb): JsStr
  {
    if t.link.Some? && t.link.value.href.Some? then Some(Trim(t.link.value.href.value)) else None
  }

  /** The event loop's `try` reaches its `catch` exactly when a thumb lacks its
      link, href or title, the block has no `.rhp-event-cta`, or that element's
      link has no href. */
  lemma StubThrows(b: EventBlock, deps: Deps)
    ensures Stub(b, deps).Thrown? <==>
      || (exists i :: 0 <= i < |b.thumbs| && ReadThumb(b.thumbs[i]).Fail?)
      || b.cta.None?
      || (b.cta.value.anchor.Some? && b.cta.value.anchor.value.href.None?)
  {
    ReadEachOk(b.thumbs, ReadThumb);
    var r := ReadEach(b.thumbs, ReadThumb);
    if r.Ok? {
      TicketThrows(b.cta, AddUris([], HeadlinerLinks(r.value)));
    }
  }

  lemma TicketThrows(cta: Option<Cta>, uris: seq<UriType>)
    ensures ReadTicket(cta, uris).Fail? <==> cta.None? || (cta.value.anchor.Some? && cta.value.anchor.value.href.None?)
  {
  }

  /** A finished stub's title is its headliners' trimmed titles joined with
      " / ", in page order and with repeats kept: `testExist` reads
      `performerName` off a string, so it never matches. */
  lemma StubTitle(b: EventBlock, deps: Deps)
    requires Stub(b, deps).Built?
    ensures Stub(b, deps).ev.eventTitle == Join(ThumbTitles(b.thumbs), " / ")
  {
    var hs := ReadEach(b.thumbs, ReadThumb).value;
    ThumbNames(b.thumbs, hs);
    var t := ReadTicket(b.cta, AddUris([], HeadlinerLinks(hs))).value;
    var c := ReadCost(b.cost);
    assert Stub(b, deps).ev.eventTitle == Join(Names(hs), " / ");
  }

  /** The trimmed titles of the thumbnails, in page order. */
  function ThumbTitles(thumbs: seq<Thumb>): seq<string>
  {
    seq(|thumbs|, i requires 0 <= i < |thumbs| => ThumbTitle(thumbs[i]))
  }

  lemma ThumbNames(thumbs: seq<Thumb>, hs: seq<Headliner>)
    requires ReadEach(thumbs, ReadThumb) == Ok(hs)
    ensures Names(hs) == ThumbTitles(thumbs)
  {
    ReadEachOk(thumbs, ReadThumb);
    NamesOf(hs);
  }

  lemma {:induction false} NamesOf(hs: seq<Headliner>)
    ensures forall i :: 0 <= i < |hs| ==> Names(hs)[i] == hs[i].name
  {
    if hs != [] {
      NamesOf(hs[..|hs| - 1]);
    }
  }

  lemma {:induction false} HeadlinerLinksOf(hs: seq<Headliner>)
    ensures forall i :: 0 <= i < |hs| ==> HeadlinerLinks(hs)[i] == UriType(Some(hs[i].uri), true)
  {
    if hs != [] {
      HeadlinerLinksOf(hs[..|hs| - 1]);
    }
  }

  /** The links the headliners push are the thumbnails' hrefs, in order. */
  lemma {:induction false} HeadlinerLinksHrefs(thumbs: seq<Thumb>, hs: seq<Headliner>)
    requires ReadEach(thumbs, ReadThumb) == Ok(hs)
    ensures |HeadlinerLinks(hs)| == |thumbs|
    ensures forall i :: 0 <= i < |thumbs| ==> HeadlinerLinks(hs)[i] == UriType(ThumbHref(thumbs[i]), true)
  {
    ReadEachOk(thumbs, ReadThumb);
    HeadlinerLinksOf(hs);
  }

  /** The links the headliner loop collects: distinct, one per href, all from the capture source. */
  lemma {:induction false} HeadlinerUris(thumbs: seq<Thumb>, hs: seq<Headliner>)
    requires ReadEach(thumbs, ReadThumb) == Ok(hs)
    ensures UrisDistinct(AddUris([], HeadlinerLinks(hs)))
    ensures forall i :: 0 <= i < |thumbs| ==> HasUri(AddUris([], HeadlinerLinks(hs)), ThumbHref(thumbs[i]))
    ensures forall k :: 0 <= k < |AddUris([], HeadlinerLinks(hs))| ==>
      AddUris([], HeadlinerLinks(hs))[k].isCaptureSrc
      && exists i :: 0 <= i < |thumbs| && AddUris([], HeadlinerLinks(hs))[k].uri == ThumbHref(thumbs[i])
  {
    var links := HeadlinerLinks(hs);
    HeadlinerLinksHrefs(thumbs, hs);
    AddUrisSpec([], links);
    var u := AddUris([], links);
    forall i | 0 <= i < |thumbs| ensures HasUri(u, ThumbHref(thumbs[i])) {
      assert links[i].uri == ThumbHref(thumbs[i]);
    }
    forall k | 0 <= k < |u|
      ensures u[k].isCaptureSrc && exists i :: 0 <= i < |thumbs| && u[k].uri == ThumbHref(thumbs[i])
    {
      assert u[k] in links;
      var i :| 0 <= i < |links| && links[i] == u[k];
      assert u[k].uri == ThumbHref(thumbs[i]);
    }
  }

  /** The ticket step only appends the ticket link, as an external one, and only when it is new. */
  lemma TicketLinks(cta: Option<Cta>, uris: seq<UriType>)
    requires ReadTicket(cta, uris).Ok?
    ensures var t := ReadTicket(cta, uris).value;
      && uris <= t.uris
      && (forall k :: |uris| <= k < |t.uris| ==> t.uris[k] == UriType(t.ticketUri, false))
      && (UrisDistinct(uris) ==> UrisDistinct(t.uris))
      && (t.ticketUri.Some? ==> HasUri(t.uris, t.ticketUri))
      && t.ticketUri == (if cta.value.anchor.None? then None else Some(Trim(cta.value.anchor.value.href.value)))
  {
    var t := ReadTicket(cta, uris).value;
    if t.ticketUri.Some? {
      assert AddUri(uris, UriType(t.ticketUri, false)) == t.uris;
    }
  }

  lemma HasUriGrows(a: seq<UriType>, b: seq<UriType>, v: JsStr)
    requires a <= b && HasUri(a, v)
    ensures HasUri(b, v)
  {
    var j :| 0 <= j < |a| && a[j].uri == v;
    assert b[j] == a[j];
  }

  /** A finished stub's links: no two alike, every headliner's href among
      them, the ticket link among them when there is one, and nothing else. */
  lemma StubLinks(b: EventBlock, deps: Deps)
    requires Stub(b, deps).Built?
    ensures UrisDistinct(Stub(b, deps).ev.eventUris)
    ensures forall i :: 0 <= i < |b.thumbs| ==> HasUri(Stub(b, deps).ev.eventUris, ThumbHref(b.thumbs[i]))
    ensures Stub(b, deps).ev.ticketUri ==
      (if b.cta.value.anchor.None? then None else Some(Trim(b.cta.value.anchor.value.href.value)))
    ensures Stub(b, deps).ev.ticketUri.Some? ==> HasUri(Stub(b, deps).ev.eventUris, Stub(b, deps).ev.ticketUri)
    ensures forall k :: 0 <= k < |Stub(b, deps).ev.eventUris| ==>
      || Stub(b, deps).ev.eventUris[k] == UriType(Stub(b, deps).ev.ticketUri, false)
      || (Stub(b, deps).ev.eventUris[k].isCaptureSrc
          && exists i :: 0 <= i < |b.thumbs| && Stub(b, deps).ev.eventUris[k].uri == ThumbHref(b.thumbs[i]))
  {
    var hs := ReadEach(b.thumbs, ReadThumb).value;
    var u := AddUris([], HeadlinerLinks(hs));
    var t := ReadTicket(b.cta, u).value;
    assert Stub(b, deps).ev.eventUris == t.uris && Stub(b, deps).ev.ticketUri == t.ticketUri;
    HeadlinerUris(b.thumbs, hs);
    TicketLinks(b.cta, u);
    forall i | 0 <= i < |b.thumbs| ensures HasUri(t.uris, ThumbHref(b.thumbs[i])) {
      HasUriGrows(u, t.uris, ThumbHref(b.thumbs[i]));
    }
    forall k | 0 <= k < |t.uris|
      ensures || t.uris[k] == UriType(t.ticketUri, false)
              || (t.uris[k].isCaptureSrc && exists i :: 0 <= i < |b.thumbs| && t.uris[k].uri == ThumbHref(b.thumbs[i]))
    {
      if k < |u| {
        assert t.uris[k] == u[k];
      }
    }
  }

  /** A finished stub's cost: the trimmed text of `.eventCost span` and the
      number it starts with once the first `$` is dropped, or "Free" and 0
      with a `No Ticket Cost` error when that node is missing. */
  lemma StubCost(b: EventBlock, deps: Deps)
    requires Stub(b, deps).Built?
    ensures Stub(b, deps).costError.None? <==> b.cost.Some? && b.cost.value.span.Some?
    ensures b.cost.Some? && b.cost.value.span.Some? ==>
      var text := Trim(b.cost.value.span.value);
      Stub(b, deps).ev.ticketCostRaw == Some(text) && Stub(b, deps).ev.ticketCost == [TicketAmtInfo(DollarAmount(text), "")]
    ensures !(b.cost.Some? && b.cost.value.span.Some?) ==>
      && Stub(b, deps).ev.ticketCostRaw == Some("Free")
      && Stub(b, deps).ev.ticketCost == [TicketAmtInfo(Num(0), "")]
      && Stub(b, deps).costError == Some("No Ticket Cost: " + NullRead(if b.cost.None? then "querySelector" else "innerText"))
  {
  }

  /** A stub carries the venue's configuration and nothing read from a detail page yet. */
  lemma StubFromConfig(b: EventBlock, deps: Deps)
    requires Stub(b, deps).Built?
    ensures var ev := Stub(b, deps).ev;
      && ev.tenantName == deps.channelCfg.tenantName && ev.channelName == deps.channelCfg.channelName
      && ev.venueName == deps.channelCfg.venueName && ev.neighborhood == deps.neighborhood
      && |ev.venueAddressLines| == |deps.channelCfg.venueAddress|
      && (forall i :: 0 <= i < |ev.venueAddressLines| ==> ev.venueAddressLines[i] == Some(deps.channelCfg.venueAddress[i]))
      && ev.startDt.None? && ev.endDt.None? && ev.performers == [] && ev.minAge.None?
  {
  }

  /** `"$"` followed by a run of digits, and then by anything that does not
      continue the number (a decimal point, a space, a dash), costs the value
      of the run: cents and ranges are cut off. */
  lemma {:induction false} DollarAmountDigits(digits: string, rest: string)
    requires digits != [] && AllDecimal(digits)
    requires rest == [] || !('0' <= rest[0] <= '9' || rest[0] == 'x' || rest[0] == 'X')
    ensures DollarAmount("$" + (digits + rest)) == Num(DigitsValue(digits, 10))
  {
    RemoveFirstAtStart("$", digits + rest);
    ParseIntDecimal(digits, rest);
  }

  lemma DollarAmountPlain()
    ensures DollarAmount("$15") == Num(15)
  {
    DollarAmountDigits("15", "");
    assert "$" + ("15" + "") == "$15";
    assert DigitsValue("15", 10) == 15;
  }

  /** A cost written as a word is NaN, not 0. */
  lemma DollarAmountWord()
    ensures DollarAmount("Free") == NaN
  {
    var free := "Free";
    assert IndexOf(free, "$", 0) == -1 by {
      forall i | 0 <= i <= |free| ensures !OccursAt(free, "$", i) {
        if i + 1 <= |free| { assert free[i..i + 1][0] == free[i]; }
      }
    }
    ParseIntNoDigit(free);
  }

  // ---------------------------------------------------------------------------
  // What the whole pass pushes and logs

  lemma {:induction false} OutcomesAt(bs: seq<EventBlock>, deps: Deps)
    ensures forall i :: 0 <= i < |bs| ==> Outcomes(bs, deps)[i] == Stub(bs[i], deps)
  {
    if bs != [] {
      OutcomesAt(bs[..|bs| - 1], deps);
    }
  }

  /** When no block throws, the pass pushes every block's stub, in order. */
  lemma ListPageComplete(bs: seq<EventBlock>, deps: Deps)
    requires forall i :: 0 <= i < |bs| ==> Stub(bs[i], deps).Built?
    ensures !Scan(Outcomes(bs, deps)).aborted
    ensures |Scan(Outcomes(bs, deps)).events| == |bs|
    ensures forall i :: 0 <= i < |bs| ==> Scan(Outcomes(bs, deps)).events[i] == Stub(bs[i], deps).ev
  {
    OutcomesAt(bs, deps);
    ScanAllBuilt(Outcomes(bs, deps));
  }

  /** The first block that throws ends the pass: the stubs before it stay
      pushed, its exception is the last entry, and later blocks are lost. */
  lemma ListPageAborted(bs: seq<EventBlock>, deps: Deps, k: nat)
    requires k < |bs| && Stub(bs[k], deps).Thrown?
    requires forall j :: 0 <= j < k ==> Stub(bs[j], deps).Built?
    ensures Scan(Outcomes(bs, deps)).aborted
    ensures Scan(Outcomes(bs, deps)).events == Scan(Outcomes(bs[..k], deps)).events
    ensures Scan(Outcomes(bs, deps)).errors == Scan(Outcomes(bs[..k], deps)).errors + [MainPageException(Stub(bs[k], deps).msg)]
  {
    OutcomesAt(bs, deps);
    OutcomesAppend(bs[..k], bs[k..], deps);
    assert bs[..k] + bs[k..] == bs;
    assert Outcomes(bs, deps)[..k] == Outcomes(bs[..k], deps);
    ScanPartial(Outcomes(bs, deps), k);
  }

  /** No event the pass pushes carries the same link twice. */
  lemma ListPageUrisDistinct(bs: seq<EventBlock>, deps: Deps)
    ensures forall k :: 0 <= k < |Scan(Outcomes(bs, deps)).events| ==> UrisDistinct(Scan(Outcomes(bs, deps)).events[k].eventUris)
  {
    var os := Outcomes(bs, deps);
    OutcomesAt(bs, deps);
    forall i | 0 <= i < |os| && os[i].Built? ensures UrisDistinct(os[i].ev.eventUris) {
      StubLinks(bs[i], deps);
    }
    ScanEventsUrisDistinct(os);
  }
}
