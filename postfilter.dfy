/**
 * The post-filter that both site families run after the detail pass: every
 * event without a start date is dropped, with one error entry naming it.
 */
module PostFilter {
  import opened Js
  import opened Capture

  /** `!!val.startDt`: an ISO string is never empty, so Some is truthy. */
  predicate Dated(e: CaptureEvent)
  {
    e.startDt.Some?
  }

  /** `val.eventUris[0].uri`, or '' for an event without links. */
  function FirstUriText(e: CaptureEvent): string
  {
    if |e.eventUris| > 0 then Show(e.eventUris[0].uri) else ""
  }

  function RemovalMessage(e: CaptureEvent): string
  {
    "Removing event because no date could be found: " + e.eventTitle + ", " + FirstUriText(e)
  }

  /** The events the filter keeps, in their order. */
  function Kept(es: seq<CaptureEvent>): (r: seq<CaptureEvent>)
    ensures |r| <= |es|
  {
    if es == [] then []
    else
      var last := es[|es| - 1];
      Kept(es[..|es| - 1]) + (if Dated(last) then [last] else [])
  }

  /** The error entries the filter appends, one per dropped event, in order. */
  function Removals(es: seq<CaptureEvent>): (r: seq<string>)
    ensures |r| <= |es|
  {
    if es == [] then []
    else
      var last := es[|es| - 1];
      Removals(es[..|es| - 1]) + (if Dated(last) then [] else [RemovalMessage(last)])
  }

  /** An event is kept exactly when it is in the input and has a start date. */
  lemma {:induction false} KeptMembers(es: seq<CaptureEvent>, e: CaptureEvent)
    ensures e in Kept(es) <==> e in es && Dated(e)
  {
    if es != [] {
      var init := es[..|es| - 1];
      KeptMembers(init, e);
      assert es == init + [es[|es| - 1]];
    }
  }

  /** Filtering distributes over concatenation, so the kept events keep their
      relative order, and so do the error entries. */
  lemma KeptAppend(a: seq<CaptureEvent>, b: seq<CaptureEvent>)
    ensures Kept(a + b) == Kept(a) + Kept(b)
    ensures Removals(a + b) == Removals(a) + Removals(b)
  {
    KeptAppendKept(a, b);
    KeptAppendRemovals(a, b);
  }

  lemma {:induction false} KeptAppendKept(a: seq<CaptureEvent>, b: seq<CaptureEvent>)
    ensures Kept(a + b) == Kept(a) + Kept(b)
    decreases |b|
  {
    if b == [] {
      assert a + b == a;
    } else {
      var initB := b[..|b| - 1];
      var last := b[|b| - 1];
      assert (a + b)[..|a + b| - 1] == a + initB;
      assert (a + b)[|a + b| - 1] == last;
      KeptAppendKept(a, initB);
      var tail := if Dated(last) then [last] else [];
      assert Kept(a) + Kept(initB) + tail == Kept(a) + (Kept(initB) + tail);
    }
  }

  lemma {:induction false} KeptAppendRemovals(a: seq<CaptureEvent>, b: seq<CaptureEvent>)
    ensures Removals(a + b) == Removals(a) + Removals(b)
    decreases |b|
  {
    if b == [] {
      assert a + b == a;
    } else {
      var initB := b[..|b| - 1];
      var last := b[|b| - 1];
      assert (a + b)[..|a + b| - 1] == a + initB;
      assert (a + b)[|a + b| - 1] == last;
      KeptAppendRemovals(a, initB);
      var tail := if Dated(last) then [] else [RemovalMessage(last)];
      assert Removals(a) + Removals(initB) + tail == Removals(a) + (Removals(initB) + tail);
    }
  }

  /** Each event goes either to the output or to the error log. */
  lemma {:induction false} KeptOrRemoved(es: seq<CaptureEvent>)
    ensures |Kept(es)| + |Removals(es)| == |es|
  {
    if es != [] {
      KeptOrRemoved(es[..|es| - 1]);
    }
  }

  /** A list in which every event is dated passes unchanged, with no error. */
  lemma {:induction false} KeptAllDated(es: seq<CaptureEvent>)
    requires forall i :: 0 <= i < |es| ==> Dated(es[i])
    ensures Kept(es) == es && Removals(es) == []
  {
    if es != [] {
      KeptAllDated(es[..|es| - 1]);
    }
  }

  /** Running the filter a second time changes nothing and logs nothing. */
  lemma KeptIdempotent(es: seq<CaptureEvent>)
    ensures Kept(Kept(es)) == Kept(es) && Removals(Kept(es)) == []
  {
    forall i | 0 <= i < |Kept(es)| ensures Dated(Kept(es)[i]) {
      KeptMembers(es, Kept(es)[i]);
    }
    KeptAllDated(Kept(es));
  }

  /** `results.events = results.events.filter(...)` with the side-effecting callback. */
  method RemoveDatelessEvents(results: CaptureResults, log: CaptureLog)
    modifies results, log`errorLogs
    ensures results.events == Kept(old(results.events))
    ensures log.Entries() == old(log.Entries()).Then(Diag(Removals(old(results.events)), [], []))
  {
    var events := results.events;
    var kept: seq<CaptureEvent> := [];
    for i := 0 to |events|
      invariant kept == Kept(events[..i])
      invariant log.Entries() == old(log.Entries()).Then(Diag(Removals(events[..i]), [], []))
    {
      assert events[..i + 1][..i] == events[..i];
      var val := events[i];
      ghost var log0 := old(log.Entries());
      ghost var prefix := events[..i + 1];
      assert prefix[..|prefix| - 1] == events[..i] && prefix[|prefix| - 1] == val;
      if !Dated(val) {
        assert Removals(prefix) == Removals(events[..i]) + [RemovalMessage(val)];
        log.Error(RemovalMessage(val));
        ThenErrors(log0, Removals(events[..i]), [RemovalMessage(val)]);
      } else {
        assert Removals(prefix) == Removals(events[..i]) + [];
        assert Removals(events[..i]) + [] == Removals(events[..i]);
        kept := kept + [val];
      }
    }
    assert events[..|events|] == events;
    results.events := kept;
  }
}
