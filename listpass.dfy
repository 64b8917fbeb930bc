/**
 * What the two list-page functions share: a day loop around an event loop,
 * inside one `try`, that pushes one stub per event block and stops at the
 * first block that throws.
 */
module ListPass {
  import opened Js
  import opened Capture

  /** What one event block comes to: the exception it throws, or the finished
      stub together with the `No Ticket Cost` error, if any, it logged. */
  datatype BlockOutcome = Thrown(msg: string) | Built(ev: CaptureEvent, costError: Option<string>)

  /** The effect of a list pass: events pushed, errors logged, and whether the
      outer `catch` was reached. */
  datatype ListScan = ListScan(events: seq<CaptureEvent>, errors: seq<string>, aborted: bool)

  function MainPageException(m: string): string
  {
    "Capture Main Page Exception Thrown: " + m
  }

  /** The event blocks of all days, day by day. */
  function Flatten<T>(days: seq<seq<T>>): seq<T>
  {
    if days == [] then [] else Flatten(days[..|days| - 1]) + days[|days| - 1]
  }

  lemma {:induction false} FlattenAppend<T>(a: seq<seq<T>>, b: seq<seq<T>>)
    ensures Flatten(a + b) == Flatten(a) + Flatten(b)
    decreases |b|
  {
    if b == [] {
      assert a + b == a;
    } else {
      assert (a + b)[..|a + b| - 1] == a + b[..|b| - 1];
      FlattenAppend(a, b[..|b| - 1]);
    }
  }

  /** Where block `e` of day `d` sits among all blocks. */
  lemma FlattenAt<T>(days: seq<seq<T>>, d: nat, e: nat)
    requires d < |days| && e < |days[d]|
    ensures Flatten(days) == (Flatten(days[..d]) + days[d][..e + 1]) + (days[d][e + 1..] + Flatten(days[d + 1..]))
  {
    assert days[..d + 1][..d] == days[..d];
    assert days == days[..d + 1] + days[d + 1..];
    FlattenAppend(days[..d + 1], days[d + 1..]);
    assert days[d] == days[d][..e + 1] + days[d][e + 1..];
  }

  /** Sequence facts about taking one more element of `xs` after `a`. */
  lemma SliceNext<T>(a: seq<T>, xs: seq<T>, e: nat)
    requires e < |xs|
    ensures a + xs[..e + 1] == (a + xs[..e]) + [xs[e]]
    ensures (a + xs[..e + 1]) + xs[e + 1..] == a + xs
  {
    assert xs[..e + 1] == xs[..e] + [xs[e]];
    assert xs == xs[..e + 1] + xs[e + 1..];
  }

  lemma FlattenNext<T>(days: seq<seq<T>>, d: nat)
    requires d < |days|
    ensures Flatten(days[..d + 1]) == Flatten(days[..d]) + days[d]
  {
    assert days[..d + 1][..d] == days[..d];
  }

  function CostErrors(c: Option<string>): seq<string>
  {
    if c.Some? then [c.value] else []
  }

  /** One turn of the event loop, unless the `catch` has already been reached. */
  function Step(s: ListScan, o: BlockOutcome): ListScan
  {
    if s.aborted then s
    else match o
      case Thrown(m) => ListScan(s.events, s.errors + [MainPageException(m)], true)
      case Built(e, c) => ListScan(s.events + [e], s.errors + CostErrors(c), false)
  }

  function Scan(os: seq<BlockOutcome>): ListScan
  {
    if os == [] then ListScan([], [], false) else Step(Scan(os[..|os| - 1]), os[|os| - 1])
  }

  lemma ScanNext(os: seq<BlockOutcome>, o: BlockOutcome)
    ensures Scan(os + [o]) == Step(Scan(os), o)
  {
    assert (os + [o])[..|os|] == os;
  }

  /** Once a block has thrown, later blocks change nothing. */
  lemma {:induction false} ScanAbortedSticky(a: seq<BlockOutcome>, b: seq<BlockOutcome>)
    requires Scan(a).aborted
    ensures Scan(a + b) == Scan(a)
    decreases |b|
  {
    if b == [] {
      assert a + b == a;
    } else {
      assert (a + b)[..|a + b| - 1] == a + b[..|b| - 1];
      ScanAbortedSticky(a, b[..|b| - 1]);
    }
  }

  /** The events pushed are those of the blocks before the first one that
      throws, which adds exactly one exception entry; it and every later
      block are lost. */
  lemma ScanPartial(os: seq<BlockOutcome>, k: nat)
    requires k < |os| && os[k].Thrown?
    requires forall j :: 0 <= j < k ==> os[j].Built?
    ensures !Scan(os[..k]).aborted
    ensures Scan(os) == ListScan(Scan(os[..k]).events, Scan(os[..k]).errors + [MainPageException(os[k].msg)], true)
  {
    ScanAllBuilt(os[..k]);
    assert os[..k + 1][..k] == os[..k];
    assert os == os[..k + 1] + os[k + 1..];
    ScanAbortedSticky(os[..k + 1], os[k + 1..]);
  }

  /** Without an exception every block yields its event, in order. */
  lemma {:induction false} ScanAllBuilt(os: seq<BlockOutcome>)
    requires forall j :: 0 <= j < |os| ==> os[j].Built?
    ensures !Scan(os).aborted
    ensures |Scan(os).events| == |os|
    ensures forall j :: 0 <= j < |os| ==> Scan(os).events[j] == os[j].ev
  {
    if os != [] {
      ScanAllBuilt(os[..|os| - 1]);
    }
  }

  /** Every pushed event is the stub of some block, so a property every
      stub has holds of every pushed event; here, distinct links. */
  lemma {:induction false} ScanEventsUrisDistinct(os: seq<BlockOutcome>)
    requires forall i :: 0 <= i < |os| && os[i].Built? ==> UrisDistinct(os[i].ev.eventUris)
    ensures forall k :: 0 <= k < |Scan(os).events| ==> UrisDistinct(Scan(os).events[k].eventUris)
  {
    if os != [] {
      var init := os[..|os| - 1];
      assert forall i :: 0 <= i < |init| ==> init[i] == os[i];
      ScanEventsUrisDistinct(init);
    }
  }

  /** `results` and `log` hold what they held at the start (`events0`,
      `log0`) plus what the scan `sc` pushed and logged. */
  ghost predicate Reflects(results: CaptureResults, log: CaptureLog, events0: seq<CaptureEvent>, log0: Diag, sc: ListScan)
    reads results, log
  {
    results.events == events0 + sc.events && log.Entries() == log0.Then(Diag(sc.errors, [], []))
  }

  /** The end of one turn of the event loop: the exception goes to the log
      and ends the pass, or the cost error, if any, is logged and the stub pushed. */
  method Record(out: BlockOutcome, results: CaptureResults, log: CaptureLog,
                ghost events0: seq<CaptureEvent>, ghost log0: Diag, ghost sc: ListScan) returns (thrown: bool)
    requires !sc.aborted && Reflects(results, log, events0, log0, sc)
    modifies results, log`errorLogs
    ensures thrown == out.Thrown? && thrown == Step(sc, out).aborted
    ensures Reflects(results, log, events0, log0, Step(sc, out))
  {
    if out.Thrown? {
      log.Error(MainPageException(out.msg));
      ThenErrors(log0, sc.errors, [MainPageException(out.msg)]);
      return true;
    }
    if out.costError.Some? {
      log.Error(out.costError.value);
    }
    ThenErrors(log0, sc.errors, CostErrors(out.costError));
    results.Push(out.ev);
    thrown := false;
  }
}
