/**
 * What doDispatch promises, proved of the calls it makes in every scenario.
 * DispatcherServlet.DoDispatch returns exactly `Expected(request, sc)` as its
 * trace and `Outcome(request, sc)` as its completion, so each lemma here is a
 * statement about every run of the method.
 */
module DispatchProperties {
  import opened DispatchTypes
  import opened Traces
  import opened DispatchSpec

  /** The call site at position `n` in the text of doDispatch. */
  function KindAt(n: nat): (k: Kind)
    requires n < 14
    ensures Rank(k) == n
  {
    [KCheckMultipart, KGetHandler, KNoHandlerFound, KGetAdapter, KGetLastModified, KCheckNotModified,
     KPreHandle, KHandle, KDefaultViewName, KPostHandle, KProcessResult, KTriggerAfterCompletion,
     KAfterConcurrentStarted, KCleanupMultipart][n]
  }

  /** The call made at the call site `k` once control reaches it, with its arguments. */
  function CallAt(request: RequestRef, sc: Scenario, k: Kind): (e: Event)
    requires Reaches(request, sc, k)
    ensures KindOf(e) == k
  {
    var p := ProcessedRequest(request, sc);
    match k
    case KCheckMultipart => CheckMultipart(request)
    case KGetHandler => GetHandler(p)
    case KNoHandlerFound => NoHandlerFound(p)
    case KGetAdapter => GetAdapter(Chain(sc))
    case KGetLastModified => GetLastModified(Adapter(sc), request, Chain(sc))
    case KCheckNotModified => CheckNotModified(request, sc.getLastModified.value)
    case KPreHandle => PreHandle(p, Chain(sc))
    case KHandle => Handle(Adapter(sc), p, Chain(sc))
    case KDefaultViewName => DefaultViewName(p, ModelAndView(sc))
    case KPostHandle => PostHandle(p, Chain(sc), ModelAndView(sc))
    case KProcessResult => ProcessResult(p, MappedHandler(sc), ModelAndView(sc), DispatchException(sc))
    case KTriggerAfterCompletion =>
      TriggerAfterCompletion(p, MappedHandler(sc), Capture(sc.processDispatchResult.thrown, HandlerProcessingFailed))
    case KAfterConcurrentStarted => AfterConcurrentStarted(p, Chain(sc))
    case KCleanupMultipart => CleanupMultipart(p)
  }

  /** The calls made at the first `n` call sites, site by site in the order of the text. */
  function CallsBefore(request: RequestRef, sc: Scenario, n: nat): (t: seq<Event>)
    requires n <= 14
  {
    if n == 0 then []
    else
      var k := KindAt(n - 1);
      CallsBefore(request, sc, n - 1) + (if Reaches(request, sc, k) then [CallAt(request, sc, k)] else [])
  }

  lemma {:induction false} CallsBeforeInProgramOrder(request: RequestRef, sc: Scenario, n: nat)
    requires n <= 14
    ensures InProgramOrder(CallsBefore(request, sc, n)) && RanksBelow(CallsBefore(request, sc, n), n)
  {
    if n > 0 {
      var k := KindAt(n - 1);
      CallsBeforeInProgramOrder(request, sc, n - 1);
      ExtendInProgramOrder(CallsBefore(request, sc, n - 1),
                           if Reaches(request, sc, k) then [CallAt(request, sc, k)] else [], n - 1);
    }
  }

  lemma {:induction false} OccursInCallsBefore(request: RequestRef, sc: Scenario, n: nat, k: Kind)
    requires n <= 14
    ensures Occurs(CallsBefore(request, sc, n), k) <==> Reaches(request, sc, k) && Rank(k) < n
  {
    if n > 0 {
      var k' := KindAt(n - 1);
      var s := if Reaches(request, sc, k') then [CallAt(request, sc, k')] else [];
      OccursInCallsBefore(request, sc, n - 1, k);
      OccursAppend(CallsBefore(request, sc, n - 1), s, k);
      if Occurs(s, k) {
        var e :| e in s && KindOf(e) == k;
      }
      if Reaches(request, sc, k) && Rank(k) == n - 1 {
        assert k == k';
        assert CallAt(request, sc, k) in s;
      }
    }
  }

  /** The first five call sites: lines 14-40. */
  lemma CallsBeforeLookup(request: RequestRef, sc: Scenario)
    ensures var p := ProcessedRequest(request, sc);
            CallsBefore(request, sc, 5)
            == [CheckMultipart(request)]
               + (if MultipartChecked(sc) then [GetHandler(p)] else [])
               + (if NoHandler(sc) then [NoHandlerFound(p)] else [])
               + (if HandlerFound(sc) then [GetAdapter(Chain(sc))] else [])
               + (if ConsultsLastModified(sc) then [GetLastModified(Adapter(sc), request, Chain(sc))] else [])
  {
    var p := ProcessedRequest(request, sc);
    assert CallsBefore(request, sc, 1) == [CheckMultipart(request)];
    assert CallsBefore(request, sc, 2) == CallsBefore(request, sc, 1) + (if MultipartChecked(sc) then [GetHandler(p)] else []);
    assert CallsBefore(request, sc, 3) == CallsBefore(request, sc, 2) + (if NoHandler(sc) then [NoHandlerFound(p)] else []);
    assert CallsBefore(request, sc, 4) == CallsBefore(request, sc, 3) + (if HandlerFound(sc) then [GetAdapter(Chain(sc))] else []);
    assert CallsBefore(request, sc, 5) == CallsBefore(request, sc, 4) + (if ConsultsLastModified(sc) then [GetLastModified(Adapter(sc), request, Chain(sc))] else []);
  }

  /** Call sites six to ten: lines 41-64. */
  lemma CallsBeforeHandling(request: RequestRef, sc: Scenario)
    ensures var p := ProcessedRequest(request, sc);
            CallsBefore(request, sc, 10)
            == CallsBefore(request, sc, 5)
               + (if LastModifiedKnown(sc) then [CheckNotModified(request, sc.getLastModified.value)] else [])
               + (if ReachesPreHandle(sc) then [PreHandle(p, Chain(sc))] else [])
               + (if ReachesHandle(sc) then [Handle(Adapter(sc), p, Chain(sc))] else [])
               + (if ReachesDefaultViewName(sc) then [DefaultViewName(p, ModelAndView(sc))] else [])
               + (if ReachesPostHandle(sc) then [PostHandle(p, Chain(sc), ModelAndView(sc))] else [])
  {
    var p := ProcessedRequest(request, sc);
    assert CallsBefore(request, sc, 6) == CallsBefore(request, sc, 5) + (if LastModifiedKnown(sc) then [CheckNotModified(request, sc.getLastModified.value)] else []);
    assert CallsBefore(request, sc, 7) == CallsBefore(request, sc, 6) + (if ReachesPreHandle(sc) then [PreHandle(p, Chain(sc))] else []);
    assert CallsBefore(request, sc, 8) == CallsBefore(request, sc, 7) + (if ReachesHandle(sc) then [Handle(Adapter(sc), p, Chain(sc))] else []);
    assert CallsBefore(request, sc, 9) == CallsBefore(request, sc, 8) + (if ReachesDefaultViewName(sc) then [DefaultViewName(p, ModelAndView(sc))] else []);
    assert CallsBefore(request, sc, 10) == CallsBefore(request, sc, 9) + (if ReachesPostHandle(sc) then [PostHandle(p, Chain(sc), ModelAndView(sc))] else []);
  }

  /** The last four call sites: lines 78-97. */
  lemma CallsBeforeCompletion(request: RequestRef, sc: Scenario)
    ensures var p := ProcessedRequest(request, sc);
            CallsBefore(request, sc, 14)
            == CallsBefore(request, sc, 10)
               + (if ReachesProcessResult(sc) then [ProcessResult(p, MappedHandler(sc), ModelAndView(sc), DispatchException(sc))] else [])
               + (if ReachesTriggerAfterCompletion(sc) then [TriggerAfterCompletion(p, MappedHandler(sc),
                                Capture(sc.processDispatchResult.thrown, HandlerProcessingFailed))] else [])
               + (if ReachesAfterConcurrentStarted(sc) then [AfterConcurrentStarted(p, Chain(sc))] else [])
               + (if ReachesCleanup(request, sc) then [CleanupMultipart(p)] else [])
  {
    var p := ProcessedRequest(request, sc);
    assert CallsBefore(request, sc, 11) == CallsBefore(request, sc, 10) + (if ReachesProcessResult(sc) then [ProcessResult(p, MappedHandler(sc), ModelAndView(sc), DispatchException(sc))] else []);
    assert CallsBefore(request, sc, 12) == CallsBefore(request, sc, 11) + (if ReachesTriggerAfterCompletion(sc) then [TriggerAfterCompletion(p, MappedHandler(sc),
                                Capture(sc.processDispatchResult.thrown, HandlerProcessingFailed))] else []);
    assert CallsBefore(request, sc, 13) == CallsBefore(request, sc, 12) + (if ReachesAfterConcurrentStarted(sc) then [AfterConcurrentStarted(p, Chain(sc))] else []);
    assert CallsBefore(request, sc, 14) == CallsBefore(request, sc, 13) + (if ReachesCleanup(request, sc) then [CleanupMultipart(p)] else []);
  }

  /** The trace of doDispatch is the call of each call site reached, in the order of the text. */
  lemma ExpectedIsCallsBefore(request: RequestRef, sc: Scenario)
    ensures Expected(request, sc) == CallsBefore(request, sc, 14)
  {
    CallsBeforeLookup(request, sc);
    CallsBeforeHandling(request, sc);
    CallsBeforeCompletion(request, sc);
  }

  /** Every call doDispatch makes comes from a call site later in the text than the calls before it. */
  lemma ExpectedInProgramOrder(request: RequestRef, sc: Scenario)
    ensures InProgramOrder(Expected(request, sc))
  {
    ExpectedIsCallsBefore(request, sc);
    CallsBeforeInProgramOrder(request, sc, 14);
  }

  /** doDispatch calls a collaborator exactly when control reaches its call site. */
  lemma OccursIffReaches(request: RequestRef, sc: Scenario, k: Kind)
    ensures Occurs(Expected(request, sc), k) <==> Reaches(request, sc, k)
  {
    ExpectedIsCallsBefore(request, sc);
    OccursInCallsBefore(request, sc, 14, k);
  }

  /** doDispatch calls each collaborator at most once: once if its call site is reached, else never. */
  lemma CalledAtMostOnce(request: RequestRef, sc: Scenario, k: Kind)
    ensures Count(Expected(request, sc), k) == if Reaches(request, sc, k) then 1 else 0
  {
    ExpectedInProgramOrder(request, sc);
    CountInProgramOrder(Expected(request, sc), k);
    OccursIffReaches(request, sc, k);
  }

  lemma {:induction false} CallsBeforeAreCalls(request: RequestRef, sc: Scenario, n: nat)
    requires n <= 14
    ensures forall e :: e in CallsBefore(request, sc, n) ==>
              Reaches(request, sc, KindOf(e)) && e == CallAt(request, sc, KindOf(e))
  {
    if n > 0 {
      CallsBeforeAreCalls(request, sc, n - 1);
    }
  }

  /** Each call doDispatch makes is the call of a reached call site, with that site's arguments. */
  lemma CallsCarryArguments(request: RequestRef, sc: Scenario)
    ensures forall e :: e in Expected(request, sc) ==>
              Reaches(request, sc, KindOf(e)) && e == CallAt(request, sc, KindOf(e))
  {
    ExpectedIsCallsBefore(request, sc);
    CallsBeforeAreCalls(request, sc, 14);
  }

  /** The one call of a reached call site, found in the trace. */
  lemma TheCall(request: RequestRef, sc: Scenario, k: Kind)
    requires Reaches(request, sc, k)
    ensures Occurs(Expected(request, sc), k)
    ensures Expected(request, sc)[IndexOf(Expected(request, sc), k)] == CallAt(request, sc, k)
  {
    OccursIffReaches(request, sc, k);
    CallsCarryArguments(request, sc);
    var t := Expected(request, sc);
    assert t[IndexOf(t, k)] in t;
  }
}
