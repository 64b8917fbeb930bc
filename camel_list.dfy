/**
 * The list page of the Camel/Richmond Shows family (`parseMainCamelPageBrowserFn`)
 * and its post-filter (`removeEventsWithMissingDates`). Each queried node of
 * an event block is an Option (missing or not), a node whose presence is all
 * that the code checks is a bool, and each `querySelectorAll` is a sequence.
 */
module CamelList {
  import opened Js
  import opened Capture
  import opened ListPass
  import PostFilter

  /** A performer link: its `href` attribute and its inner text. */
  datatype ActLink = ActLink(href: JsStr, text: string)

  /** A `.rhpSingleEvent` and its `#eventTitle` link. */
  datatype HeadlinerItem = HeadlinerItem(link: Option<ActLink>)

  /** `h3.ticket-link a` and its `href` attribute. */
  datatype TicketAnchor = TicketAnchor(href: JsStr)

  /** One node the event selector matched inside a day. */
  datatype EventBlock = EventBlock(
    headliners: seq<HeadlinerItem>,
    venue: Option<string>,
    supporters: seq<ActLink>,
    ticketLink: Option<TicketAnchor>,
    free: bool,
    allAges: bool,
    over21: bool)

  /** What a headliner or supporter contributes: its link and its name. */
  datatype Act = Act(uri: string, name: string)

  /** `if (eventUri.uri) eventUri.uri = DOMAIN_NAME + eventUri.uri`: a
      relative link is made absolute; an empty one stays empty. */
  function Prefixed(domain: string, uri: string): (r: string)
    ensures uri == "" ==> r == ""
    ensures uri != "" ==> r == domain + uri && r[|domain|..] == uri
  {
    if uri != "" then domain + uri else uri
  }

  /** `getAttribute("href").trim()` and `innerText.trim()` on a performer link. */
  function ReadAct(a: ActLink, domain: string): Result<Act>
  {
    if a.href.None? then Fail(NullRead("trim"))
    else Ok(Act(Prefixed(domain, Trim(a.href.value)), Trim(a.text)))
  }

  function ReadHeadliner(h: HeadlinerItem, domain: string): Result<Act>
  {
    if h.link.None? then Fail(NullRead("getAttribute")) else ReadAct(h.link.value, domain)
  }

  function ActReader(domain: string): ActLink -> Result<Act>
  {
    a => ReadAct(a, domain)
  }

  function HeadlinerReader(domain: string): HeadlinerItem -> Result<Act>
  {
    h => ReadHeadliner(h, domain)
  }

  /** The links the acts push, each marked as from the capture source. */
  function ActLinks(acts: seq<Act>): (r: seq<UriType>)
    ensures |r| == |acts|
  {
    if acts == [] then [] else ActLinks(acts[..|acts| - 1]) + [UriType(Some(acts[|acts| - 1].uri), true)]
  }

  function Names(acts: seq<Act>): (r: seq<string>)
    ensures |r| == |acts|
  {
    if acts == [] then [] else Names(acts[..|acts| - 1]) + [acts[|acts| - 1].name]
  }

  /** The ticket link: `ticketUri` and the links afterwards. */
  datatype Ticket = Ticket(ticketUri: JsStr, uris: seq<UriType>)

  /** The `href` is taken as it is, neither trimmed nor prefixed, and is added
      as an external link unless a link with the same text is there. */
  function ReadTicket(t: Option<TicketAnchor>, uris: seq<UriType>): Ticket
  {
    if t.None? then Ticket(None, uris)
    else Ticket(t.value.href, AddUri(uris, UriType(t.value.href, false)))
  }

  /** `innerText.match(/broadberry/i)`, with case folded on ASCII letters. */
  predicate MentionsBroadberry(text: string)
  {
    IndexOf(Lower(text), "broadberry", 0) != -1
  }

  /** What one event block yields; the block's `try` has no inner `catch`, so
      there is never a cost error. */
  function Stub(b: EventBlock, deps: Deps): BlockOutcome
  {
    var domain := deps.channelCfg.domainName;
    match ReadEach(b.headliners, HeadlinerReader(domain))
    case Fail(m) => Thrown(m)
    case Ok(hs) =>
      match ReadEach(b.supporters, ActReader(domain))
      case Fail(m) => Thrown(m)
      case Ok(ss) => Built(Fill(b, deps, hs, ss), None)
  }

  /** The stub of a block whose headliners `hs` and supporters `ss` all read. */
  function Fill(b: EventBlock, deps: Deps, hs: seq<Act>, ss: seq<Act>): CaptureEvent
  {
    var t := ReadTicket(b.ticketLink, AddUris(AddUris([], ActLinks(hs)), ActLinks(ss)));
    NewStub(deps).(eventUris := t.uris, eventTitle := Join(Names(hs) + Names(ss), " / "),
                   ticketUri := t.ticketUri,
                   ticketCostRaw := if b.free then Some("Free") else None,
                   ticketCost := if b.free then [TicketAmtInfo(Num(0), "")] else [],
                   minAge := if b.allAges then Some(0) else if b.over21 then Some(21) else None)
  }

  /** The outcome of each block, in order. */
  function Outcomes(bs: seq<EventBlock>, deps: Deps): (os: seq<BlockOutcome>)
    ensures |os| == |bs|
  {
    if bs == [] then [] else Outcomes(bs[..|bs| - 1], deps) + [Stub(bs[|bs| - 1], deps)]
  }

  lemma {:induction false} OutcomesAppend(a: seq<EventBlock>, b: seq<EventBlock>, deps: Deps)
    ensures Outcomes(a + b, deps) == Outcomes(a, deps) + Outcomes(b, deps)
    decreases |b|
  {
    if b == [] {
      assert a + b == a;
    } else {
      assert (a + b)[..|a + b| - 1] == a + b[..|b| - 1];
      OutcomesAppend(a, b[..|b| - 1], deps);
    }
  }

  /** One more act read: the specification functions grow by that act. */
  lemma ActNext<T>(items: seq<T>, read: T -> Result<Act>, i: nat, init: seq<UriType>, acts: seq<Act>)
    requires i < |items| && ReadEach(items[..i], read) == Ok(acts) && read(items[i]).Ok?
    ensures var a := read(items[i]).value;
      && ReadEach(items[..i + 1], read) == Ok(acts + [a])
      && AddUris(init, ActLinks(acts + [a])) == AddUri(AddUris(init, ActLinks(acts)), UriType(Some(a.uri), true))
      && Names(acts + [a]) == Names(acts) + [a.name]
  {
    var a := read(items[i]).value;
    assert items[..i + 1][..i] == items[..i];
    assert (acts + [a])[..|acts|] == acts;
    assert ActLinks(acts + [a])[..|acts|] == ActLinks(acts);
  }

  /** The first item that throws decides the outcome of the loop. */
  lemma ActThrows<T>(items: seq<T>, read: T -> Result<Act>, i: nat, acts: seq<Act>)
    requires i < |items| && ReadEach(items[..i], read) == Ok(acts) && read(items[i]).Fail?
    ensures ReadEach(items, read) == Fail(read(items[i]).msg)
  {
    ReadEachOk(items[..i], read);
    assert forall j :: 0 <= j < i ==> items[..i][j] == items[j];
    ReadEachFirstFailure(items, read, i);
  }

  /** The headliner loop: the links pushed and the title segments, or the
      exception of the first `.rhpSingleEvent` that throws. */
  method CollectHeadliners(items: seq<HeadlinerItem>, domain: string)
    returns (r: Result<seq<Act>>, uris: seq<UriType>, titleSegments: seq<string>)
    ensures r == ReadEach(items, HeadlinerReader(domain))
    ensures r.Ok? ==> uris == AddUris([], ActLinks(r.value)) && titleSegments == Names(r.value)
  {
    uris, titleSegments := [], [];
    var acts: seq<Act> := [];
    for i := 0 to |items|
      invariant ReadEach(items[..i], HeadlinerReader(domain)) == Ok(acts)
      invariant uris == AddUris([], ActLinks(acts))
      invariant titleSegments == Names(acts)
    {
      var linkElement := items[i].link;
      if linkElement.None? || linkElement.value.href.None? {
        ActThrows(items, HeadlinerReader(domain), i, acts);
        r := Fail(ReadHeadliner(items[i], domain).msg);
        return;
      }
      var eventUri := UriType(Some(Trim(linkElement.value.href.value)), true);
      if eventUri.uri.value != "" {
        eventUri := eventUri.(uri := Some(domain + eventUri.uri.value));
      }
      var performerName := Trim(linkElement.value.text);
      ghost var a := ReadHeadliner(items[i], domain).value;
      assert eventUri == UriType(Some(a.uri), true) && performerName == a.name;
      ActNext(items, HeadlinerReader(domain), i, [], acts);
      if !HasUri(uris, eventUri.uri) {
        uris := uris + [eventUri];
      }
      // `testExist` reads `.performerName` off a string, which is undefined,
      // so `findIndex` never finds the name and the segment is always pushed.
      titleSegments := titleSegments + [performerName];
      acts := acts + [Act(eventUri.uri.value, performerName)];
    }
    assert items[..|items|] == items;
    r := Ok(acts);
  }

  /** The supporter loop over `h2.supports a`, continuing the links and
      segments the headliners left. */
  method CollectSupporters(items: seq<ActLink>, domain: string, uris0: seq<UriType>, segments0: seq<string>)
    returns (r: Result<seq<Act>>, uris: seq<UriType>, titleSegments: seq<string>)
    ensures r == ReadEach(items, ActReader(domain))
    ensures r.Ok? ==> uris == AddUris(uris0, ActLinks(r.value)) && titleSegments == segments0 + Names(r.value)
  {
    uris, titleSegments := uris0, segments0;
    var acts: seq<Act> := [];
    for i := 0 to |items|
      invariant ReadEach(items[..i], ActReader(domain)) == Ok(acts)
      invariant uris == AddUris(uris0, ActLinks(acts))
      invariant titleSegments == segments0 + Names(acts)
    {
      var supporterLinkItem := items[i];
      if supporterLinkItem.href.None? {
        ActThrows(items, ActReader(domain), i, acts);
        r := Fail(ReadAct(items[i], domain).msg);
        return;
      }
      var act;
      ActNext(items, ActReader(domain), i, uris0, acts);
      act, uris, titleSegments := PushSupporter(supporterLinkItem, domain, uris, titleSegments);
      AppendAssoc(segments0, Names(acts), [act.name]);
      acts := acts + [act];
    }
    assert items[..|items|] == items;
    r := Ok(acts);
  }

  lemma AppendAssoc<T>(a: seq<T>, b: seq<T>, c: seq<T>)
    ensures a + b + c == a + (b + c)
  {
  }

  /** One supporter link with an href: its link joins the links unless
      already there, and its name joins the title segments. */
  method PushSupporter(item: ActLink, domain: string, uris0: seq<UriType>, segments0: seq<string>)
    returns (act: Act, uris: seq<UriType>, titleSegments: seq<string>)
    requires item.href.Some?
    ensures ReadAct(item, domain) == Ok(act)
    ensures uris == AddUri(uris0, UriType(Some(act.uri), true)) && titleSegments == segments0 + [act.name]
  {
    var eventUri := UriType(Some(Trim(item.href.value)), true);
    if eventUri.uri.value != "" {
      eventUri := eventUri.(uri := Some(domain + eventUri.uri.value));
    }
    var performerName := Trim(item.text);
    uris := uris0;
    if !HasUri(uris, eventUri.uri) {
      uris := uris + [eventUri];
    }
    // As for the headliners, `testExist` never matches, so the name is always pushed.
    titleSegments := segments0 + [performerName];
    act := Act(eventUri.uri.value, performerName);
  }

  /** The ticket link of an event block, `h3.ticket-link a`. */
  method ReadTicketLink(t: Option<TicketAnchor>, uris0: seq<UriType>) returns (ticket: Ticket)
    ensures ticket == ReadTicket(t, uris0)
  {
    var uris := uris0;
    var ticketUri: JsStr := None;
    if t.Some? {
      ticketUri := t.value.href;
      if !HasUri(uris, ticketUri) {
        uris := uris + [UriType(ticketUri, false)];
      }
    }
    ticket := Ticket(ticketUri, uris);
  }

  /** The body of the event loop, up to `results.events.push(event)`. */
  method BuildStub(b: EventBlock, deps: Deps) returns (out: BlockOutcome)
    ensures out == Stub(b, deps)
  {
    var cfg := deps.channelCfg;
    var venueName := cfg.venueName;
    var hs, uris, titleSegments := CollectHeadliners(b.headliners, cfg.domainName);
    if hs.Fail? {
      return Thrown(hs.msg);
    }
    if b.venue.Some? && MentionsBroadberry(b.venue.value) {
      venueName := cfg.venueName;
    }
    var ss;
    ss, uris, titleSegments := CollectSupporters(b.supporters, cfg.domainName, uris, titleSegments);
    if ss.Fail? {
      return Thrown(ss.msg);
    }
    var event := FinishStub(b, deps, venueName, uris, titleSegments, hs.value, ss.value);
    out := Built(event, None);
  }

  /** The rest of the block once the performer links are read: the title,
      the ticket link, the free marker and the age markers. */
  method FinishStub(b: EventBlock, deps: Deps, venueName: JsStr, uris: seq<UriType>, titleSegments: seq<string>,
                    ghost hs: seq<Act>, ghost ss: seq<Act>) returns (event: CaptureEvent)
    requires venueName == deps.channelCfg.venueName
    requires uris == AddUris(AddUris([], ActLinks(hs)), ActLinks(ss))
    requires titleSegments == Names(hs) + Names(ss)
    ensures event == Fill(b, deps, hs, ss)
  {
    var eventTitle := Join(titleSegments, " / ");
    var ticket := ReadTicketLink(b.ticketLink, uris);
    var ticketCostRaw: JsStr := None;
    var ticketCost: seq<TicketAmtInfo> := [];
    if b.free {
      ticketCostRaw := Some("Free");
      ticketCost := ticketCost + [TicketAmtInfo(Num(0), "")];
    }
    var minAge: Option<int> := None;
    if b.allAges {
      minAge := Some(0);
    } else if b.over21 {
      minAge := Some(21);
    }
    event := NewStub(deps).(venueName := venueName, eventUris := ticket.uris, eventTitle := eventTitle,
                            ticketUri := ticket.ticketUri, ticketCostRaw := ticketCostRaw,
                            ticketCost := ticketCost, minAge := minAge);
  }

  /** The event loop of one day, after the blocks `done`; it stops at the first block that throws. */
  method ParseDay(ghost done: seq<EventBlock>, eventsCtx: seq<EventBlock>, results: CaptureResults, log: CaptureLog,
                  deps: Deps, ghost events0: seq<CaptureEvent>, ghost log0: Diag) returns (thrown: bool)
    requires !Scan(Outcomes(done, deps)).aborted
    requires Reflects(results, log, events0, log0, Scan(Outcomes(done, deps)))
    modifies results, log`errorLogs
    ensures thrown == Scan(Outcomes(done + eventsCtx, deps)).aborted
    ensures Reflects(results, log, events0, log0, Scan(Outcomes(done + eventsCtx, deps)))
  {
    assert done + eventsCtx[..0] == done;
    for e := 0 to |eventsCtx|
      invariant !Scan(Outcomes(done + eventsCtx[..e], deps)).aborted
      invariant Reflects(results, log, events0, log0, Scan(Outcomes(done + eventsCtx[..e], deps)))
    {
      SliceNext(done, eventsCtx, e);
      ScanOutcomesNext(done + eventsCtx[..e], eventsCtx[e], deps);
      var out := BuildStub(eventsCtx[e], deps);
      thrown := Record(out, results, log, events0, log0, Scan(Outcomes(done + eventsCtx[..e], deps)));
      if thrown {
        AbortedPrefix(done + eventsCtx[..e + 1], eventsCtx[e + 1..], deps);
        return;
      }
    }
    assert eventsCtx[..|eventsCtx|] == eventsCtx;
    thrown := false;
  }

  /** `parseMainCamelPageBrowserFn(daysCtx, results, log, deps)`. */
  method ParseListPage(days: seq<seq<EventBlock>>, results: CaptureResults, log: CaptureLog, deps: Deps)
    modifies results, log`errorLogs
    ensures results.events == old(results.events) + Scan(Outcomes(Flatten(days), deps)).events
    ensures log.Entries() == old(log.Entries()).Then(Diag(Scan(Outcomes(Flatten(days), deps)).errors, [], []))
  {
    ghost var events0, log0 := results.events, log.Entries();
    assert events0 + [] == events0;
    ThenNoDiag(log0);
    for d := 0 to |days|
      invariant !Scan(Outcomes(Flatten(days[..d]), deps)).aborted
      invariant Reflects(results, log, events0, log0, Scan(Outcomes(Flatten(days[..d]), deps)))
    {
      FlattenNext(days, d);
      var thrown := ParseDay(Flatten(days[..d]), days[d], results, log, deps, events0, log0);
      if thrown {
        AbortedDays(days, d, deps);
        return;
      }
    }
    assert days[..|days|] == days;
  }

  /** Once a block of day `d` has thrown, the later days change nothing. */
  lemma AbortedDays(days: seq<seq<EventBlock>>, d: nat, deps: Deps)
    requires d < |days| && Scan(Outcomes(Flatten(days[..d + 1]), deps)).aborted
    ensures Scan(Outcomes(Flatten(days), deps)) == Scan(Outcomes(Flatten(days[..d + 1]), deps))
  {
    assert days[..d + 1] + days[d + 1..] == days;
    FlattenAppend(days[..d + 1], days[d + 1..]);
    AbortedPrefix(Flatten(days[..d + 1]), Flatten(days[d + 1..]), deps);
  }

  /** Once a block has thrown, the blocks after it change nothing. */
  lemma AbortedPrefix(bs: seq<EventBlock>, rest: seq<EventBlock>, deps: Deps)
    requires Scan(Outcomes(bs, deps)).aborted
    ensures Scan(Outcomes(bs + rest, deps)) == Scan(Outcomes(bs, deps))
  {
    OutcomesAppend(bs, rest, deps);
    ScanAbortedSticky(Outcomes(bs, deps), Outcomes(rest, deps));
  }

  lemma ScanOutcomesNext(bs: seq<EventBlock>, b: EventBlock, deps: Deps)
    ensures Scan(Outcomes(bs + [b], deps)) == Step(Scan(Outcomes(bs, deps)), Stub(b, deps))
  {
    assert (bs + [b])[..|bs|] == bs;
    ScanNext(Outcomes(bs, deps), Stub(b, deps));
  }

  /** `removeEventsWithMissingDates(results, log)`. */
  method RemoveEventsWithMissingDates(results: CaptureResults, log: CaptureLog)
    modifies results, log`errorLogs
    ensures results.events == PostFilter.Kept(old(results.events))
    ensures log.Entries() == old(log.Entries()).Then(Diag(PostFilter.Removals(old(results.events)), [], []))
  {
    PostFilter.RemoveDatelessEvents(results, log);
  }

  // ---------------------------------------------------------------------------
  // What a stub holds

  /** The trimmed inner text of a performer link. */
  function ActName(a: ActLink): string
  {
    Trim(a.text)
  }

  function HeadlinerName(h: HeadlinerItem): string
  {
    if h.link.Some? then Trim(h.link.value.text) else ""
  }

  /** The link a performer link pushes: its trimmed href behind `DOMAIN_NAME`. */
  function ActHref(a: ActLink, domain: string): JsStr
  {
    if a.href.Some? then Some(Prefixed(domain, Trim(a.href.value))) else None
  }

  function HeadlinerHref(h: HeadlinerItem, domain: string): JsStr
  {
    if h.link.Some? then ActHref(h.link.value, domain) else None
  }

  /** The block's `try` reaches its `catch` exactly when a `.rhpSingleEvent`
      has no `#eventTitle` link or that link no href, or a supporter link has
      no href; a headliner's exception comes first. */
  lemma StubThrows(b: EventBlock, deps: Deps)
    ensures var domain := deps.channelCfg.domainName;
      Stub(b, deps).Thrown? <==>
        || (exists i :: 0 <= i < |b.headliners| && (b.headliners[i].link.None? || b.headliners[i].link.value.href.None?))
        || (exists i :: 0 <= i < |b.supporters| && b.supporters[i].href.None?)
    ensures Stub(b, deps).Built? ==> Stub(b, deps).costError.None?
  {
    var domain := deps.channelCfg.domainName;
    ReadEachOk(b.headliners, HeadlinerReader(domain));
    ReadEachOk(b.supporters, ActReader(domain));
  }

  /** The acts read are the links in page order, each with its trimmed name
      and its href made absolute. */
  lemma {:induction false} ActsOf<T>(items: seq<T>, read: T -> Result<Act>, name: T -> string, href: T -> JsStr)
    requires ReadEach(items, read).Ok?
    requires forall i :: 0 <= i < |items| && read(items[i]).Ok? ==>
      Some(read(items[i]).value.uri) == href(items[i]) && read(items[i]).value.name == name(items[i])
    ensures var acts := ReadEach(items, read).value;
      && (forall i :: 0 <= i < |items| ==> Names(acts)[i] == name(items[i]))
      && (forall i :: 0 <= i < |items| ==> ActLinks(acts)[i] == UriType(href(items[i]), true))
  {
    ReadEachOk(items, read);
    var acts := ReadEach(items, read).value;
    NamesOf(acts);
    ActLinksOf(acts);
  }

  lemma {:induction false} NamesOf(acts: seq<Act>)
    ensures forall i :: 0 <= i < |acts| ==> Names(acts)[i] == acts[i].name
  {
    if acts != [] {
      NamesOf(acts[..|acts| - 1]);
    }
  }

  lemma {:induction false} ActLinksOf(acts: seq<Act>)
    ensures forall i :: 0 <= i < |acts| ==> ActLinks(acts)[i] == UriType(Some(acts[i].uri), true)
  {
    if acts != [] {
      ActLinksOf(acts[..|acts| - 1]);
    }
  }

  /** A finished stub's title is the headliners' names followed by the
      supporters' names, trimmed, joined with " / ", repeats kept. */
  lemma StubTitle(b: EventBlock, deps: Deps)
    requires Stub(b, deps).Built?
    ensures Stub(b, deps).ev.eventTitle == Join(HeadlinerNames(b.headliners) + SupporterNames(b.supporters), " / ")
  {
    var domain := deps.channelCfg.domainName;
    HeadlinerNamesOf(b.headliners, domain);
    SupporterNamesOf(b.supporters, domain);
    var hs := ReadEach(b.headliners, HeadlinerReader(domain)).value;
    var ss := ReadEach(b.supporters, ActReader(domain)).value;
    assert Stub(b, deps).ev == Fill(b, deps, hs, ss);
  }

  /** The trimmed names of the headliner links, in page order. */
  function HeadlinerNames(items: seq<HeadlinerItem>): seq<string>
  {
    seq(|items|, i requires 0 <= i < |items| => HeadlinerName(items[i]))
  }

  /** The trimmed names of the supporter links, in page order. */
  function SupporterNames(items: seq<ActLink>): seq<string>
  {
    seq(|items|, i requires 0 <= i < |items| => ActName(items[i]))
  }

  lemma HeadlinerNamesOf(items: seq<HeadlinerItem>, domain: string)
    requires ReadEach(items, HeadlinerReader(domain)).Ok?
    ensures Names(ReadEach(items, HeadlinerReader(domain)).value) == HeadlinerNames(items)
  {
    ActsOf(items, HeadlinerReader(domain), HeadlinerName, (h: HeadlinerItem) => HeadlinerHref(h, domain));
  }

  lemma SupporterNamesOf(items: seq<ActLink>, domain: string)
    requires ReadEach(items, ActReader(domain)).Ok?
    ensures Names(ReadEach(items, ActReader(domain)).value) == SupporterNames(items)
  {
    ActsOf(items, ActReader(domain), ActName, (a: ActLink) => ActHref(a, domain));
  }

  /** A finished stub's markers: "Free" with one zero amount exactly when
      `h3.free` is there, and no cost at all otherwise; an all-ages marker
      means 0 whatever else is there, over-21 alone means 21, neither leaves
      the age unset; and the venue stays the configured one, which is also
      what a venue line naming Broadberry sets. */
  lemma StubMarkers(b: EventBlock, deps: Deps)
    requires Stub(b, deps).Built?
    ensures var ev := Stub(b, deps).ev;
      && (b.free ==> ev.ticketCostRaw == Some("Free") && ev.ticketCost == [TicketAmtInfo(Num(0), "")])
      && (!b.free ==> ev.ticketCostRaw.None? && ev.ticketCost == [])
      && (b.allAges ==> ev.minAge == Some(0))
      && (!b.allAges && b.over21 ==> ev.minAge == Some(21))
      && (!b.allAges && !b.over21 ==> ev.minAge.None?)
      && ev.venueName == deps.channelCfg.venueName
  {
  }

  /** A finished stub carries the configuration and nothing from a detail page yet. */
  lemma StubFromConfig(b: EventBlock, deps: Deps)
    requires Stub(b, deps).Built?
    ensures var ev := Stub(b, deps).ev;
      && ev.tenantName == deps.channelCfg.tenantName && ev.channelName == deps.channelCfg.channelName
      && ev.neighborhood == deps.neighborhood
      && |ev.venueAddressLines| == |deps.channelCfg.venueAddress|
      && (forall i :: 0 <= i < |ev.venueAddressLines| ==> ev.venueAddressLines[i] == Some(deps.channelCfg.venueAddress[i]))
      && ev.startDt.None? && ev.endDt.None? && ev.performers == [] && ev.promoters == []
  {
  }

  lemma HasUriGrows(a: seq<UriType>, b: seq<UriType>, v: JsStr)
    requires a <= b && HasUri(a, v)
    ensures HasUri(b, v)
  {
    var j :| 0 <= j < |a| && a[j].uri == v;
    assert b[j] == a[j];
  }

  /** The links of a run of acts, added after `init`, keep `init` first
      and add no duplicate. */
  lemma ActUrisGrow(init: seq<UriType>, acts: seq<Act>)
    ensures init <= AddUris(init, ActLinks(acts))
    ensures UrisDistinct(init) ==> UrisDistinct(AddUris(init, ActLinks(acts)))
  {
    AddUrisSpec(init, ActLinks(acts));
  }

  /** Every act's link is among them. */
  lemma ActUrisCover(init: seq<UriType>, acts: seq<Act>)
    ensures forall i :: 0 <= i < |acts| ==> HasUri(AddUris(init, ActLinks(acts)), Some(acts[i].uri))
  {
    ActLinksOf(acts);
    AddUrisSpec(init, ActLinks(acts));
    assert forall i :: 0 <= i < |acts| ==> ActLinks(acts)[i].uri == Some(acts[i].uri);
  }

  /** Nothing but `init` and the acts' links is among them. */
  lemma ActUrisOnly(init: seq<UriType>, acts: seq<Act>)
    ensures forall k :: 0 <= k < |AddUris(init, ActLinks(acts))| ==>
      AddUris(init, ActLinks(acts))[k] in init || exists i :: 0 <= i < |acts| && AddUris(init, ActLinks(acts))[k] == UriType(Some(acts[i].uri), true)
  {
    var links := ActLinks(acts);
    ActLinksOf(acts);
    AddUrisSpec(init, links);
    var u := AddUris(init, links);
    forall k | 0 <= k < |u| && u[k] !in init
      ensures exists i :: 0 <= i < |acts| && u[k] == UriType(Some(acts[i].uri), true)
    {
      var i :| 0 <= i < |links| && links[i] == u[k];
    }
  }

  /** The ticket step only appends the raw ticket href, as an external link,
      and only when no link has the same text. */
  lemma TicketLinks(t: Option<TicketAnchor>, uris: seq<UriType>)
    ensures var r := ReadTicket(t, uris);
      && uris <= r.uris
      && (forall k :: |uris| <= k < |r.uris| ==> r.uris[k] == UriType(r.ticketUri, false))
      && (UrisDistinct(uris) ==> UrisDistinct(r.uris))
      && (t.Some? ==> r.ticketUri == t.value.href && HasUri(r.uris, r.ticketUri))
      && (t.None? ==> r.ticketUri.None? && r.uris == uris)
  {
  }

  /** Every headliner's and every supporter's href, trimmed and behind
      `DOMAIN_NAME`, is among the links. */
  predicate LinksCover(uris: seq<UriType>, b: EventBlock, domain: string)
  {
    && (forall i :: 0 <= i < |b.headliners| ==> HasUri(uris, HeadlinerHref(b.headliners[i], domain)))
    && (forall i :: 0 <= i < |b.supporters| ==> HasUri(uris, ActHref(b.supporters[i], domain)))
  }

  /** Every link is the ticket link or a headliner's or supporter's link. */
  predicate LinksOnly(uris: seq<UriType>, ticketUri: JsStr, b: EventBlock, domain: string)
  {
    forall k :: 0 <= k < |uris| ==>
      || uris[k] == UriType(ticketUri, false)
      || (exists i :: 0 <= i < |b.headliners| && uris[k] == UriType(HeadlinerHref(b.headliners[i], domain), true))
      || (exists i :: 0 <= i < |b.supporters| && uris[k] == UriType(ActHref(b.supporters[i], domain), true))
  }

  /** Links as a finished stub holds them: no two alike, all the performer
      links, the raw ticket href when there is a ticket link, and nothing else. */
  predicate LinksOk(uris: seq<UriType>, ticketUri: JsStr, b: EventBlock, domain: string)
  {
    && UrisDistinct(uris)
    && LinksCover(uris, b, domain)
    && ticketUri == (if b.ticketLink.Some? then b.ticketLink.value.href else None)
    && (b.ticketLink.Some? ==> HasUri(uris, ticketUri))
    && LinksOnly(uris, ticketUri, b, domain)
  }

  /** The acts `hs` and `ss` read from the headliners and supporters of `b`. */
  predicate ReadFrom(b: EventBlock, domain: string, hs: seq<Act>, ss: seq<Act>)
  {
    && |hs| == |b.headliners| && (forall i :: 0 <= i < |hs| ==> Some(hs[i].uri) == HeadlinerHref(b.headliners[i], domain))
    && |ss| == |b.supporters| && (forall i :: 0 <= i < |ss| ==> Some(ss[i].uri) == ActHref(b.supporters[i], domain))
  }

  lemma FillCovers(b: EventBlock, domain: string, hs: seq<Act>, ss: seq<Act>)
    requires ReadFrom(b, domain, hs, ss)
    ensures LinksCover(ReadTicket(b.ticketLink, AddUris(AddUris([], ActLinks(hs)), ActLinks(ss))).uris, b, domain)
  {
    var u1 := AddUris([], ActLinks(hs));
    var u2 := AddUris(u1, ActLinks(ss));
    var t := ReadTicket(b.ticketLink, u2);
    ActUrisGrow([], hs);
    ActUrisGrow(u1, ss);
    ActUrisCover([], hs);
    ActUrisCover(u1, ss);
    TicketLinks(b.ticketLink, u2);
    forall i | 0 <= i < |b.headliners| ensures HasUri(t.uris, HeadlinerHref(b.headliners[i], domain)) {
      HasUriGrows(u1, t.uris, HeadlinerHref(b.headliners[i], domain));
    }
    forall i | 0 <= i < |b.supporters| ensures HasUri(t.uris, ActHref(b.supporters[i], domain)) {
      HasUriGrows(u2, t.uris, ActHref(b.supporters[i], domain));
    }
  }

  /** A link the performer loops push is a headliner's or a supporter's. */
  lemma ActLinkFrom(b: EventBlock, domain: string, hs: seq<Act>, ss: seq<Act>, x: UriType)
    requires ReadFrom(b, domain, hs, ss)
    requires x in AddUris(AddUris([], ActLinks(hs)), ActLinks(ss))
    ensures || (exists i :: 0 <= i < |b.headliners| && x == UriType(HeadlinerHref(b.headliners[i], domain), true))
            || (exists i :: 0 <= i < |b.supporters| && x == UriType(ActHref(b.supporters[i], domain), true))
  {
    var u1 := AddUris([], ActLinks(hs));
    ActUrisOnly([], hs);
    ActUrisOnly(u1, ss);
    var u2 := AddUris(u1, ActLinks(ss));
    var k :| 0 <= k < |u2| && u2[k] == x;
    if x in u1 {
      var j :| 0 <= j < |u1| && u1[j] == x;
      var i :| 0 <= i < |hs| && u1[j] == UriType(Some(hs[i].uri), true);
      assert x == UriType(HeadlinerHref(b.headliners[i], domain), true);
    } else {
      var i :| 0 <= i < |ss| && u2[k] == UriType(Some(ss[i].uri), true);
      assert x == UriType(ActHref(b.supporters[i], domain), true);
    }
  }

  lemma FillOnly(b: EventBlock, domain: string, hs: seq<Act>, ss: seq<Act>)
    requires ReadFrom(b, domain, hs, ss)
    ensures var t := ReadTicket(b.ticketLink, AddUris(AddUris([], ActLinks(hs)), ActLinks(ss)));
      LinksOnly(t.uris, t.ticketUri, b, domain)
  {
    var u2 := AddUris(AddUris([], ActLinks(hs)), ActLinks(ss));
    var t := ReadTicket(b.ticketLink, u2);
    TicketLinks(b.ticketLink, u2);
    forall k | 0 <= k < |t.uris|
      ensures || t.uris[k] == UriType(t.ticketUri, false)
              || (exists i :: 0 <= i < |b.headliners| && t.uris[k] == UriType(HeadlinerHref(b.headliners[i], domain), true))
              || (exists i :: 0 <= i < |b.supporters| && t.uris[k] == UriType(ActHref(b.supporters[i], domain), true))
    {
      if k < |u2| {
        assert t.uris[k] == u2[k];
        ActLinkFrom(b, domain, hs, ss, u2[k]);
      }
    }
  }

  /** The ticket step after the headliner and supporter links leaves the links `LinksOk` says. */
  lemma FillLinks(b: EventBlock, domain: string, hs: seq<Act>, ss: seq<Act>)
    requires ReadFrom(b, domain, hs, ss)
    ensures var t := ReadTicket(b.ticketLink, AddUris(AddUris([], ActLinks(hs)), ActLinks(ss)));
      LinksOk(t.uris, t.ticketUri, b, domain)
  {
    var u1 := AddUris([], ActLinks(hs));
    ActUrisGrow([], hs);
    ActUrisGrow(u1, ss);
    TicketLinks(b.ticketLink, AddUris(u1, ActLinks(ss)));
    FillCovers(b, domain, hs, ss);
    FillOnly(b, domain, hs, ss);
  }

  /** A finished stub's links are as `LinksOk` says. */
  lemma StubLinks(b: EventBlock, deps: Deps)
    requires Stub(b, deps).Built?
    ensures LinksOk(Stub(b, deps).ev.eventUris, Stub(b, deps).ev.ticketUri, b, deps.channelCfg.domainName)
  {
    var domain := deps.channelCfg.domainName;
    ReadEachOk(b.headliners, HeadlinerReader(domain));
    ReadEachOk(b.supporters, ActReader(domain));
    var hs := ReadEach(b.headliners, HeadlinerReader(domain)).value;
    var ss := ReadEach(b.supporters, ActReader(domain)).value;
    FillLinks(b, domain, hs, ss);
  }

  // ---------------------------------------------------------------------------
  // What the whole pass pushes and logs

  lemma {:induction false} OutcomesAt(bs: seq<EventBlock>, deps: Deps)
    ensures forall i :: 0 <= i < |bs| ==> Outcomes(bs, deps)[i] == Stub(bs[i], deps)
  {
    if bs != [] {
      var init := bs[..|bs| - 1];
      OutcomesAt(init, deps);
      assert Outcomes(bs, deps) == Outcomes(init, deps) + [Stub(bs[|bs| - 1], deps)];
      forall i | 0 <= i < |bs| ensures Outcomes(bs, deps)[i] == Stub(bs[i], deps) {
        if i < |bs| - 1 {
          assert bs[i] == init[i];
        }
      }
    }
  }

  /** When no block throws, the pass pushes every block's stub, in order, and logs nothing. */
  lemma ListPageComplete(bs: seq<EventBlock>, deps: Deps)
    requires forall i :: 0 <= i < |bs| ==> Stub(bs[i], deps).Built?
    ensures !Scan(Outcomes(bs, deps)).aborted
    ensures |Scan(Outcomes(bs, deps)).events| == |bs|
    ensures forall i :: 0 <= i < |bs| ==> Scan(Outcomes(bs, deps)).events[i] == Stub(bs[i], deps).ev
    ensures Scan(Outcomes(bs, deps)).errors == []
  {
    OutcomesAt(bs, deps);
    ScanAllBuilt(Outcomes(bs, deps));
    forall i | 0 <= i < |bs| ensures Outcomes(bs, deps)[i].costError.None? {
      StubThrows(bs[i], deps);
    }
    ScanNoErrors(Outcomes(bs, deps));
  }

  /** Blocks that log no cost error leave no error behind. */
  lemma {:induction false} ScanNoErrors(os: seq<BlockOutcome>)
    requires forall i :: 0 <= i < |os| ==> os[i].Built? && os[i].costError.None?
    ensures Scan(os).errors == []
  {
    if os != [] {
      var init := os[..|os| - 1];
      assert forall i :: 0 <= i < |init| ==> init[i] == os[i];
      ScanNoErrors(init);
    }
  }

  /** The first block that throws ends the pass: the stubs before it stay
      pushed, its exception is the last entry, and later blocks are lost. */
  lemma ListPageAborted(bs: seq<EventBlock>, deps: Deps, k: nat)
    requires k < |bs| && Stub(bs[k], deps).Thrown?
    requires forall j :: 0 <= j < k ==> Stub(bs[j], deps).Built?
    ensures Scan(Outcomes(bs, deps)).aborted
    ensures Scan(Outcomes(bs, deps)).events == Scan(Outcomes(bs[..k], deps)).events
    ensures Scan(Outcomes(bs, deps)).errors == Scan(Outcomes(bs[..k], deps)).errors + [MainPageException(Stub(bs[k], deps).msg)]
  {
    OutcomesAt(bs, deps);
    OutcomesAppend(bs[..k], bs[k..], deps);
    assert bs[..k] + bs[k..] == bs;
    assert Outcomes(bs, deps)[..k] == Outcomes(bs[..k], deps);
    ScanPartial(Outcomes(bs, deps), k);
  }

  /** No event the pass pushes carries the same link twice. */
  lemma ListPageUrisDistinct(bs: seq<EventBlock>, deps: Deps)
    ensures forall k :: 0 <= k < |Scan(Outcomes(bs, deps)).events| ==> UrisDistinct(Scan(Outcomes(bs, deps)).events[k].eventUris)
  {
    var os := Outcomes(bs, deps);
    OutcomesAt(bs, deps);
    forall i | 0 <= i < |os| && os[i].Built? ensures UrisDistinct(os[i].ev.eventUris) {
      StubLinks(bs[i], deps);
    }
    ScanEventsUrisDistinct(os);
  }
}
