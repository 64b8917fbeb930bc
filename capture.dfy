/**
 * The records a capture run produces (`CaptureEvent` and its parts), the
 * configuration bundle it is given, and the two objects it threads through
 * every call and changes in place: the diagnostic log and the results.
 */
module Capture {
  import opened Js

  /** What `Date.prototype.toISOString` returns: never empty. */
  type IsoString = s: string | s != "" witness "1970-01-01T00:00:00.000Z"

  /** A link of an event; `isCaptureSrc` is false for an external ticket vendor. */
  datatype UriType = UriType(uri: JsStr, isCaptureSrc: bool)

  datatype TicketAmtInfo = TicketAmtInfo(amt: Number, qualifier: string)

  datatype ContactItemType = Phone

  datatype ContactInfoItem = ContactInfoItem(item: string, itemType: ContactItemType)

  datatype PromoterInfo = PromoterInfo(name: string, desc: string, uris: seq<string>)

  datatype CapturePerformer = CapturePerformer(
    performerName: string,
    performerUris: seq<string>,
    performerImageUris: seq<JsStr>,
    isPrimaryPerformer: bool,
    performerDesc: JsStr)

  /** One concert. A field the source leaves undefined or sets to null is None. */
  datatype CaptureEvent = CaptureEvent(
    tenantName: string,
    channelName: string,
    channelImage: string,
    channelBaseUri: string,
    venueName: JsStr,
    performers: seq<CapturePerformer>,
    eventImageUris: seq<string>,
    eventUris: seq<UriType>,
    ticketCost: seq<TicketAmtInfo>,
    venueAddressLines: seq<JsStr>,
    venueContactInfo: seq<ContactInfoItem>,
    minAge: Option<int>,
    rawDoorTimeStr: JsStr,
    doorTimeHours: Option<Number>,
    doorTimeMin: Option<Number>,
    promoters: seq<PromoterInfo>,
    neighborhood: string,
    eventTitle: string,
    ticketUri: JsStr,
    ticketCostRaw: JsStr,
    startDt: Option<IsoString>,
    endDt: Option<IsoString>,
    detailPageInnerText: JsStr,
    detailPageHtml: JsStr,
    facebookShareUri: JsStr,
    twitterShareUri: JsStr,
    iCalUri: JsStr,
    gCalUri: JsStr)

  /** The `channelCfg` part of the configuration bundle. */
  datatype ChannelConfig = ChannelConfig(
    tenantName: string,
    channelName: string,
    channelImage: string,
    primaryUri: string,
    domainName: string,
    venueName: JsStr,
    venueAddress: seq<string>,
    venuePhone: JsStr)

  /** The configuration bundle (`deps`) handed to every browser-side function. */
  datatype Deps = Deps(channelCfg: ChannelConfig, neighborhood: string, curUri: string)

  /** The stub a list page starts each event block with, before anything is read. */
  function NewStub(deps: Deps): CaptureEvent
  {
    var cfg := deps.channelCfg;
    CaptureEvent(
      cfg.tenantName, cfg.channelName, cfg.channelImage, cfg.primaryUri, cfg.venueName,
      [], [], [], [],
      seq(|cfg.venueAddress|, i requires 0 <= i < |cfg.venueAddress| => Some(cfg.venueAddress[i])),
      if Truthy(cfg.venuePhone) then [ContactInfoItem(cfg.venuePhone.value, Phone)] else [],
      None, None, None, None, [], deps.neighborhood,
      "", None, None, None, None, None, None, None, None, None, None)
  }

  // ---------------------------------------------------------------------------
  // Link and performer sets kept as lists

  /** `uris.map(x => x.uri).indexOf(v) !== -1`, with `===` on strings and null. */
  predicate HasUri(uris: seq<UriType>, v: JsStr)
  {
    exists k :: 0 <= k < |uris| && uris[k].uri == v
  }

  /** No two entries carry the same `uri`. */
  predicate UrisDistinct(uris: seq<UriType>)
  {
    forall i, j :: 0 <= i < j < |uris| ==> uris[i].uri != uris[j].uri
  }

  /** Append `u` unless an entry with the same `uri` string is already there. */
  function AddUri(uris: seq<UriType>, u: UriType): (r: seq<UriType>)
    ensures HasUri(uris, u.uri) ==> r == uris
    ensures !HasUri(uris, u.uri) ==> r == uris + [u]
    ensures HasUri(r, u.uri)
    ensures UrisDistinct(uris) ==> UrisDistinct(r)
  {
    if HasUri(uris, u.uri) then uris
    else assert (uris + [u])[|uris|] == u; uris + [u]
  }

  /** Each link of `us` in order through `AddUri`. */
  function AddUris(init: seq<UriType>, us: seq<UriType>): seq<UriType>
  {
    if us == [] then init else AddUri(AddUris(init, us[..|us| - 1]), us[|us| - 1])
  }

  /** `AddUris` only appends, keeps the links distinct, contains every link
      it was given, and invents none. */
  lemma {:induction false} AddUrisSpec(init: seq<UriType>, us: seq<UriType>)
    ensures init <= AddUris(init, us)
    ensures UrisDistinct(init) ==> UrisDistinct(AddUris(init, us))
    ensures forall k :: 0 <= k < |us| ==> HasUri(AddUris(init, us), us[k].uri)
    ensures forall k :: 0 <= k < |AddUris(init, us)| ==> AddUris(init, us)[k] in init || AddUris(init, us)[k] in us
  {
    if us != [] {
      var prefix := us[..|us| - 1];
      AddUrisSpec(init, prefix);
      var prev := AddUris(init, prefix);
      var r := AddUri(prev, us[|us| - 1]);
      assert forall k :: 0 <= k < |prefix| ==> us[k] == prefix[k];
      forall k | 0 <= k < |prefix| ensures HasUri(r, us[k].uri) {
        assert HasUri(prev, prefix[k].uri);
        var j :| 0 <= j < |prev| && prev[j].uri == us[k].uri;
        assert r[j] == prev[j];
      }
    }
  }

  /** Reading each element in order; the first failure is what escapes. */
  function ReadEach<T, U>(xs: seq<T>, read: T -> Result<U>): (r: Result<seq<U>>)
    ensures r.Ok? ==> |r.value| == |xs|
  {
    if xs == [] then Ok([])
    else
      match ReadEach(xs[..|xs| - 1], read)
      case Fail(m) => Fail(m)
      case Ok(vs) =>
        match read(xs[|xs| - 1])
        case Fail(m) => Fail(m)
        case Ok(v) => Ok(vs + [v])
  }

  /** Reading succeeds exactly when every element reads, and then yields their values in order. */
  lemma {:induction false} ReadEachOk<T, U>(xs: seq<T>, read: T -> Result<U>)
    ensures ReadEach(xs, read).Ok? <==> forall i :: 0 <= i < |xs| ==> read(xs[i]).Ok?
    ensures ReadEach(xs, read).Ok? ==> forall i :: 0 <= i < |xs| ==> read(xs[i]) == Ok(ReadEach(xs, read).value[i])
  {
    if xs != [] {
      var init := xs[..|xs| - 1];
      ReadEachOk(init, read);
      assert forall i :: 0 <= i < |init| ==> xs[i] == init[i];
    }
  }

  /** The failure of the first element that fails is the failure of the whole. */
  lemma {:induction false} ReadEachFirstFailure<T, U>(xs: seq<T>, read: T -> Result<U>, i: nat)
    requires i < |xs| && read(xs[i]).Fail?
    requires forall j :: 0 <= j < i ==> read(xs[j]).Ok?
    ensures ReadEach(xs, read) == Fail(read(xs[i]).msg)
  {
    var init := xs[..|xs| - 1];
    if i < |xs| - 1 {
      assert init[i] == xs[i];
      assert forall j :: 0 <= j < i ==> init[j] == xs[j];
      ReadEachFirstFailure(init, read, i);
    } else {
      assert forall j :: 0 <= j < |init| ==> init[j] == xs[j];
      ReadEachOk(init, read);
    }
  }

  /** `performers.findIndex(x => x.performerName.toLowerCase() == name.toLowerCase()) != -1`. */
  predicate HasPerformerCI(performers: seq<CapturePerformer>, name: string)
  {
    exists k :: 0 <= k < |performers| && EqualCI(performers[k].performerName, name)
  }

  /** No two performers whose names are equal up to case. */
  predicate NamesDistinctCI(performers: seq<CapturePerformer>)
  {
    forall i, j :: 0 <= i < j < |performers| ==> !EqualCI(performers[i].performerName, performers[j].performerName)
  }

  // ---------------------------------------------------------------------------
  // Diagnostics

  /** The entries one call appends to the three logs, in order. */
  datatype Diag = Diag(errors: seq<string>, warnings: seq<string>, infos: seq<string>)
  {
    function Then(next: Diag): Diag
    {
      Diag(errors + next.errors, warnings + next.warnings, infos + next.infos)
    }
  }

  const NoDiag := Diag([], [], [])

  function ErrorEntry(m: string): Diag { Diag([m], [], []) }
  function WarningEntry(m: string): Diag { Diag([], [m], []) }
  function InfoEntry(m: string): Diag { Diag([], [], [m]) }

  lemma ThenAssoc(a: Diag, b: Diag, c: Diag)
    ensures a.Then(b).Then(c) == a.Then(b.Then(c))
  {
    assert a.Then(b).Then(c).errors == a.errors + (b.errors + c.errors);
    assert a.Then(b).Then(c).warnings == a.warnings + (b.warnings + c.warnings);
    assert a.Then(b).Then(c).infos == a.infos + (b.infos + c.infos);
  }

  lemma ThenNoDiag(a: Diag)
    ensures a.Then(NoDiag) == a && NoDiag.Then(a) == a
  {
    assert a.errors + [] == a.errors;
    assert a.warnings + [] == a.warnings;
    assert a.infos + [] == a.infos;
  }

  /** Two batches of error entries are one batch. */
  lemma ThenErrors(a: Diag, xs: seq<string>, ys: seq<string>)
    ensures a.Then(Diag(xs, [], [])).Then(Diag(ys, [], [])) == a.Then(Diag(xs + ys, [], []))
  {
    ThenAssoc(a, Diag(xs, [], []), Diag(ys, [], []));
  }

  /** The run's diagnostic log: three lists that are only ever appended to. */
  class CaptureLog {
    var tenantName: string
    var channelName: string
    var logDt: string
    var totalCapturedEvents: int
    var errorLogs: seq<string>
    var warningLogs: seq<string>
    var infoLogs: seq<string>

    constructor (tenantName: string, channelName: string, logDt: string)
      ensures this.tenantName == tenantName && this.channelName == channelName && this.logDt == logDt
      ensures totalCapturedEvents == 0
      ensures Entries() == NoDiag
    {
      this.tenantName := tenantName;
      this.channelName := channelName;
      this.logDt := logDt;
      totalCapturedEvents := 0;
      errorLogs, warningLogs, infoLogs := [], [], [];
    }

    function Entries(): Diag
      reads this
    {
      Diag(errorLogs, warningLogs, infoLogs)
    }

    method Error(m: string)
      modifies this`errorLogs
      ensures Entries() == old(Entries()).Then(ErrorEntry(m))
    {
      errorLogs := errorLogs + [m];
    }

    method Warning(m: string)
      modifies this`warningLogs
      ensures Entries() == old(Entries()).Then(WarningEntry(m))
    {
      warningLogs := warningLogs + [m];
    }

    method Info(m: string)
      modifies this`infoLogs
      ensures Entries() == old(Entries()).Then(InfoEntry(m))
    {
      infoLogs := infoLogs + [m];
    }
  }

  /** The run's results: the events found so far, in list order. */
  class CaptureResults {
    var events: seq<CaptureEvent>

    constructor ()
      ensures events == []
    {
      events := [];
    }

    method Push(e: CaptureEvent)
      modifies this
      ensures events == old(events) + [e]
    {
      events := events + [e];
    }
  }

  /** `Cannot read properties of null (reading '<prop>')`: the TypeError a
      Chromium page raises when a method is called on a missing node. */
  function NullRead(prop: string): string
  {
    "Cannot read properties of null (reading '" + prop + "')"
  }

  /** The same for a value that is undefined. */
  function UndefinedRead(prop: string): string
  {
    "Cannot read properties of undefined (reading '" + prop + "')"
  }

  /** The RangeError message of `toISOString` on an invalid date. */
  const InvalidTimeValue := "Invalid time value"

  /** What `new Date(s)` yields as far as the helpers look at it: the ISO
      string, the local day of month and month (1-12), and the local hours
      and milliseconds (`getHours()`, `getMilliseconds()`). */
  datatype DateInfo = DateInfo(iso: IsoString, day: int, month: int, hours: int, millis: int)

  /** The helpers that live outside this core: `new Date(s)` (None: an invalid
      date), `injectedHelpers.parseTime` and `injectedHelpers.parseTicketString`. */
  datatype TextHelpers = TextHelpers(
    parseDate: string -> Option<DateInfo>,
    parseTime: string -> (string, int, int),
    parseTicketString: string -> seq<TicketAmtInfo>)

  /** `curEvent.x = new Date(s).toISOString()`, which throws on an invalid date. */
  function ToIso(h: TextHelpers, s: string): (r: Result<IsoString>)
    ensures r.Fail? <==> h.parseDate(s).None?
    ensures r.Fail? ==> r.msg == InvalidTimeValue
  {
    match h.parseDate(s)
    case None => Fail(InvalidTimeValue)
    case Some(d) => Ok(d.iso)
  }

  /** A value or the message of the exception that was thrown instead. */
  datatype Result<T> = Ok(value: T) | Fail(msg: string)
}
