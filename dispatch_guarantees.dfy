/**
 * The sequencing rules of doDispatch, one lemma per rule, each a statement
 * about the trace `Expected(request, sc)` and the completion `Outcome(request, sc)`
 * that DispatcherServlet.DoDispatch returns in the scenario `sc`.
 */
module DispatchGuarantees {
  import opened DispatchTypes
  import opened Traces
  import opened DispatchSpec
  import opened DispatchProperties

  /**
   * The finally block (lines 87-100) runs on every path, the early returns
   * included: it calls applyAfterConcurrentHandlingStarted when concurrent
   * handling has started and a handler was found, cleanupMultipart when it has
   * not started and the request was substituted, never both, and that call
   * is the last one doDispatch makes.
   */
  lemma FinallyCallsAtMostOneHook(request: RequestRef, sc: Scenario)
    ensures var t := Expected(request, sc);
            Occurs(t, KAfterConcurrentStarted) <==> ConcurrentHandlingStarted(sc) && MappedHandler(sc).Some?
    ensures var t := Expected(request, sc);
            Occurs(t, KCleanupMultipart) <==> !ConcurrentHandlingStarted(sc) && Substituted(request, sc)
    ensures var t := Expected(request, sc);
            Count(t, KAfterConcurrentStarted) + Count(t, KCleanupMultipart) <= 1
    ensures var t := Expected(request, sc);
            Occurs(t, KAfterConcurrentStarted) ==>
              t[|t| - 1] == AfterConcurrentStarted(ProcessedRequest(request, sc), MappedHandler(sc).value)
    ensures var t := Expected(request, sc);
            Occurs(t, KCleanupMultipart) ==> t[|t| - 1] == CleanupMultipart(ProcessedRequest(request, sc))
  {
    OccursIffReaches(request, sc, KAfterConcurrentStarted);
    OccursIffReaches(request, sc, KCleanupMultipart);
    CalledAtMostOnce(request, sc, KAfterConcurrentStarted);
    CalledAtMostOnce(request, sc, KCleanupMultipart);
  }

  /**
   * cleanupMultipart is called only on the request checkMultipart returned,
   * and only when that is not the original request; when checkMultipart
   * throws, its failure goes to processDispatchResult with no handler and no
   * ModelAndView, and nothing is cleaned up.
   */
  lemma CleanupOnlyOfSubstitutedRequest(request: RequestRef, sc: Scenario)
    ensures var t := Expected(request, sc);
            Occurs(t, KCleanupMultipart) ==>
              sc.checkMultipart.Returns? && sc.checkMultipart.value != request
              && t[|t| - 1] == CleanupMultipart(sc.checkMultipart.value)
    ensures sc.checkMultipart.Throws? ==>
              var f := sc.processDispatchResult;
              Expected(request, sc)
              == [CheckMultipart(request),
                  ProcessResult(request, None, None, Some(Capture(sc.checkMultipart.thrown, HandlerDispatchFailed)))]
                 + (if f.Throws? then [TriggerAfterCompletion(request, None, Capture(f.thrown, HandlerProcessingFailed))]
                    else [])
  {
    FinallyCallsAtMostOneHook(request, sc);
  }

  /**
   * No handler (lines 22-27): apart from checkMultipart and getHandler only
   * noHandlerFound is called before the return, and the finally block still
   * cleans up a substituted request.
   */
  lemma NoHandlerFoundPath(request: RequestRef, sc: Scenario)
    requires sc.checkMultipart.Returns? && sc.getHandler == Returns(None) && sc.noHandlerFound.Returns?
    ensures var p := sc.checkMultipart.value;
            var cleans := p != request && !sc.asyncOnEntry;
            && Expected(request, sc)
               == [CheckMultipart(request), GetHandler(p), NoHandlerFound(p)] + (if cleans then [CleanupMultipart(p)] else [])
            && Outcome(request, sc) == if cleans && sc.cleanupMultipart.Throws? then Abrupt(sc.cleanupMultipart.thrown)
                                       else Normal
  {
  }

  /**
   * With no handler and a failing noHandlerFound (lines 22-27), the return at
   * line 26 is not reached: the failure is captured and processDispatchResult
   * runs with no handler and no ModelAndView, followed by triggerAfterCompletion
   * if that fails, then the finally block.
   */
  lemma NoHandlerFoundFailureCaptured(request: RequestRef, sc: Scenario)
    requires sc.checkMultipart.Returns? && sc.getHandler == Returns(None) && sc.noHandlerFound.Throws?
    ensures var p := sc.checkMultipart.value;
            var cleans := p != request && !sc.asyncOnEntry;
            var fails := sc.processDispatchResult.Throws?;
            && Expected(request, sc)
               == [CheckMultipart(request), GetHandler(p), NoHandlerFound(p),
                   ProcessResult(p, None, None, Some(Capture(sc.noHandlerFound.thrown, HandlerDispatchFailed)))]
                  + (if fails then [TriggerAfterCompletion(p, None,
                                      Capture(sc.processDispatchResult.thrown, HandlerProcessingFailed))] else [])
                  + (if cleans then [CleanupMultipart(p)] else [])
            && Outcome(request, sc)
               == if cleans && sc.cleanupMultipart.Throws? then Abrupt(sc.cleanupMultipart.thrown)
                  else if fails && sc.triggerAfterCompletion.Throws? then Abrupt(sc.triggerAfterCompletion.thrown)
                  else Normal
  {
  }

  /**
   * The last-modified check (lines 37-44) is made only for GET and HEAD, once
   * a handler adapter was found; checkNotModified follows whenever
   * getLastModified returns, for GET and HEAD alike.
   */
  lemma LastModifiedOnlyForGetOrHead(request: RequestRef, sc: Scenario)
    ensures var t := Expected(request, sc);
            Occurs(t, KGetLastModified) <==> AdapterFound(sc) && (sc.httpMethod == GET || sc.httpMethod == HEAD)
    ensures var t := Expected(request, sc);
            Occurs(t, KCheckNotModified) <==> Occurs(t, KGetLastModified) && sc.getLastModified.Returns?
  {
    OccursIffReaches(request, sc, KGetLastModified);
    OccursIffReaches(request, sc, KCheckNotModified);
  }

  /** getLastModified and checkNotModified are given the original request, not the processed one. */
  lemma LastModifiedUsesOriginalRequest(request: RequestRef, sc: Scenario)
    ensures forall e :: e in Expected(request, sc) && e.GetLastModified? ==> e.request == request
    ensures forall e :: e in Expected(request, sc) && e.CheckNotModified? ==>
              e.request == request && sc.getLastModified == Returns(e.lastModified)
  {
    CallsCarryArguments(request, sc);
  }

  /**
   * A GET that is not modified returns at line 42: no pre-handle, no handle,
   * no processDispatchResult; only the finally block follows.
   */
  lemma NotModifiedGetReturnsEarly(request: RequestRef, sc: Scenario)
    requires AdapterFound(sc) && sc.httpMethod == GET
    requires sc.getLastModified.Returns? && sc.checkNotModified == Returns(true)
    ensures var p, chain, ha := sc.checkMultipart.value, Chain(sc), Adapter(sc);
            Expected(request, sc)
            == [CheckMultipart(request), GetHandler(p), GetAdapter(chain), GetLastModified(ha, request, chain),
                CheckNotModified(request, sc.getLastModified.value)]
               + (if sc.asyncOnEntry then [AfterConcurrentStarted(p, chain)]
                  else if p != request then [CleanupMultipart(p)] else [])
  {
  }

  /** A HEAD that is not modified does not return: its pre-handle check follows. */
  lemma NotModifiedHeadContinues(request: RequestRef, sc: Scenario)
    requires AdapterFound(sc) && sc.httpMethod == HEAD
    requires sc.getLastModified.Returns? && sc.checkNotModified == Returns(true)
    ensures var t := Expected(request, sc);
            Occurs(t, KCheckNotModified) && Occurs(t, KPreHandle) && IndexOf(t, KCheckNotModified) < IndexOf(t, KPreHandle)
  {
    OccursIffReaches(request, sc, KCheckNotModified);
    OccursIffReaches(request, sc, KPreHandle);
    ExpectedInProgramOrder(request, sc);
    OrderOfCalls(Expected(request, sc), KCheckNotModified, KPreHandle);
  }

  /**
   * For a HEAD the result of checkNotModified (line 41) makes no difference:
   * whether it reports not-modified or not, the calls and the completion are
   * the same.
   */
  lemma NotModifiedHeadIgnoresCheck(request: RequestRef, sc: Scenario)
    requires sc.httpMethod == HEAD && sc.checkNotModified.Returns?
    ensures var modified := sc.(checkNotModified := Returns(false));
            Expected(request, sc) == Expected(request, modified) && Outcome(request, sc) == Outcome(request, modified)
  {
  }

  /**
   * A pre-handle check that returns false (line 47-48) skips handle,
   * applyDefaultViewName, applyPostHandle, processDispatchResult and
   * triggerAfterCompletion.
   */
  lemma PreHandleFalseSkipsHandling(request: RequestRef, sc: Scenario)
    requires ReachesPreHandle(sc) && sc.applyPreHandle == Returns(false)
    ensures var t := Expected(request, sc);
            && Occurs(t, KPreHandle)
            && !Occurs(t, KHandle) && !Occurs(t, KDefaultViewName) && !Occurs(t, KPostHandle)
            && !Occurs(t, KProcessResult) && !Occurs(t, KTriggerAfterCompletion)
  {
    OccursIffReaches(request, sc, KPreHandle);
    OccursIffReaches(request, sc, KHandle);
    OccursIffReaches(request, sc, KDefaultViewName);
    OccursIffReaches(request, sc, KPostHandle);
    OccursIffReaches(request, sc, KProcessResult);
    OccursIffReaches(request, sc, KTriggerAfterCompletion);
  }

  /**
   * The handler is invoked only after checkMultipart, getHandler,
   * getHandlerAdapter and a pre-handle check that returned true, in that order.
   */
  lemma HandleAfterLookupAndPreHandle(request: RequestRef, sc: Scenario)
    requires Occurs(Expected(request, sc), KHandle)
    ensures sc.applyPreHandle == Returns(true)
    ensures var t := Expected(request, sc);
            && Occurs(t, KCheckMultipart) && Occurs(t, KGetHandler) && Occurs(t, KGetAdapter) && Occurs(t, KPreHandle)
            && IndexOf(t, KCheckMultipart) < IndexOf(t, KGetHandler) < IndexOf(t, KGetAdapter)
               < IndexOf(t, KPreHandle) < IndexOf(t, KHandle)
  {
    var t := Expected(request, sc);
    OccursIffReaches(request, sc, KHandle);
    OccursIffReaches(request, sc, KCheckMultipart);
    OccursIffReaches(request, sc, KGetHandler);
    OccursIffReaches(request, sc, KGetAdapter);
    OccursIffReaches(request, sc, KPreHandle);
    ExpectedInProgramOrder(request, sc);
    OrderOfCalls(t, KCheckMultipart, KGetHandler);
    OrderOfCalls(t, KGetHandler, KGetAdapter);
    OrderOfCalls(t, KGetAdapter, KPreHandle);
    OrderOfCalls(t, KPreHandle, KHandle);
  }

  /**
   * Once concurrent handling has started by the time handle returns (lines
   * 57-59): no default view name, no post-handle, no processDispatchResult;
   * the finally block calls applyAfterConcurrentHandlingStarted exactly once,
   * as the last call, and cleans nothing up.
   */
  lemma AsyncStartedSkipsPostProcessing(request: RequestRef, sc: Scenario)
    requires ReachesHandle(sc) && sc.handle.Returns? && ConcurrentHandlingStarted(sc)
    ensures var t := Expected(request, sc);
            && !Occurs(t, KDefaultViewName) && !Occurs(t, KPostHandle)
            && !Occurs(t, KProcessResult) && !Occurs(t, KTriggerAfterCompletion)
            && Count(t, KAfterConcurrentStarted) == 1 && Count(t, KCleanupMultipart) == 0
            && t[|t| - 1] == AfterConcurrentStarted(sc.checkMultipart.value, Chain(sc))
    ensures Outcome(request, sc)
            == if sc.applyAfterConcurrentHandlingStarted.Throws?
               then Abrupt(sc.applyAfterConcurrentHandlingStarted.thrown) else Normal
  {
    OccursIffReaches(request, sc, KDefaultViewName);
    OccursIffReaches(request, sc, KPostHandle);
    OccursIffReaches(request, sc, KProcessResult);
    OccursIffReaches(request, sc, KTriggerAfterCompletion);
    CalledAtMostOnce(request, sc, KAfterConcurrentStarted);
    CalledAtMostOnce(request, sc, KCleanupMultipart);
    FinallyCallsAtMostOneHook(request, sc);
  }

  /** What the call at site `k` of lines 14-64 throws in the scenario, if it throws. */
  function ThrownAt(sc: Scenario, k: Kind): (thrown: Option<Throwable>) {
    match k
      case KCheckMultipart => if sc.checkMultipart.Throws? then Some(sc.checkMultipart.thrown) else None
      case KGetHandler => if sc.getHandler.Throws? then Some(sc.getHandler.thrown) else None
      case KNoHandlerFound => if sc.noHandlerFound.Throws? then Some(sc.noHandlerFound.thrown) else None
      case KGetAdapter => if sc.getHandlerAdapter.Throws? then Some(sc.getHandlerAdapter.thrown) else None
      case KGetLastModified => if sc.getLastModified.Throws? then Some(sc.getLastModified.thrown) else None
      case KCheckNotModified => if sc.checkNotModified.Throws? then Some(sc.checkNotModified.thrown) else None
      case KPreHandle => if sc.applyPreHandle.Throws? then Some(sc.applyPreHandle.thrown) else None
      case KHandle => if sc.handle.Throws? then Some(sc.handle.thrown) else None
      case KDefaultViewName =>
        if sc.applyDefaultViewName.Throws? then Some(sc.applyDefaultViewName.thrown) else None
      case KPostHandle => if sc.applyPostHandle.Throws? then Some(sc.applyPostHandle.thrown) else None
      case _ => None
  }

  /**
   * The failure the inner try hands on (lines 66-73) is that of the last
   * call it made; every call before that one returned. So the first failure
   * ends the inner try.
   */
  lemma {:induction false} FailureIsLastInnerCall(request: RequestRef, sc: Scenario)
    ensures var t := InnerEvents(request, sc);
            && |t| > 0
            && (forall j :: 0 <= j < |t| - 1 ==> ThrownAt(sc, KindOf(t[j])).None?)
            && InnerFailure(sc) == ThrownAt(sc, KindOf(t[|t| - 1]))
  {
  }

  /**
   * Any failure of lines 14-64 reaches processDispatchResult, which is called
   * exactly once: an Exception unchanged, any other Throwable wrapped in a
   * NestedServletException "Handler dispatch failed".
   */
  lemma FailureCaptured(request: RequestRef, sc: Scenario)
    requires InnerFailure(sc).Some?
    ensures var t, f := Expected(request, sc), InnerFailure(sc).value;
            && Occurs(t, KProcessResult) && Count(t, KProcessResult) == 1
            && t[IndexOf(t, KProcessResult)]
               == ProcessResult(ProcessedRequest(request, sc), MappedHandler(sc), ModelAndView(sc),
                                Some(if f.IsException() then f else NestedServletException(HandlerDispatchFailed, f)))
  {
    CalledAtMostOnce(request, sc, KProcessResult);
    TheCall(request, sc, KProcessResult);
  }

  /**
   * A failure of getHandlerAdapter (line 34) does not propagate: it is
   * captured and handed to processDispatchResult with the handler found.
   */
  lemma AdapterFailureCaptured(request: RequestRef, sc: Scenario)
    requires sc.checkMultipart.Returns? && sc.getHandler.Returns? && sc.getHandler.value.Some?
    requires sc.getHandlerAdapter.Throws?
    ensures var p, chain := sc.checkMultipart.value, sc.getHandler.value.value;
            var failure := Capture(sc.getHandlerAdapter.thrown, HandlerDispatchFailed);
            Expected(request, sc)[..4]
            == [CheckMultipart(request), GetHandler(p), GetAdapter(chain),
                ProcessResult(p, Some(chain), None, Some(failure))]
  {
  }

  /**
   * A failing handler (line 55) means no default view name and no
   * post-handle, but processDispatchResult is called even when concurrent
   * handling has started: the return at line 58 is not reached.
   */
  lemma HandleFailureStopsPostProcessing(request: RequestRef, sc: Scenario)
    requires ReachesHandle(sc) && sc.handle.Throws?
    ensures var t := Expected(request, sc);
            !Occurs(t, KDefaultViewName) && !Occurs(t, KPostHandle) && Occurs(t, KProcessResult)
  {
    OccursIffReaches(request, sc, KDefaultViewName);
    OccursIffReaches(request, sc, KPostHandle);
    OccursIffReaches(request, sc, KProcessResult);
  }

  /**
   * triggerAfterCompletion (lines 80-86) is called at most once, exactly
   * when processDispatchResult was called and threw, after it, and with an
   * Exception unchanged or any other Throwable wrapped in a
   * NestedServletException "Handler processing failed".
   */
  lemma TriggerAfterCompletionOnlyWhenResultFails(request: RequestRef, sc: Scenario)
    ensures Count(Expected(request, sc), KTriggerAfterCompletion) <= 1
    ensures var t := Expected(request, sc);
            Occurs(t, KTriggerAfterCompletion) <==> Occurs(t, KProcessResult) && sc.processDispatchResult.Throws?
    ensures var t := Expected(request, sc);
            Occurs(t, KTriggerAfterCompletion) ==>
              var f := sc.processDispatchResult.thrown;
              && IndexOf(t, KProcessResult) < IndexOf(t, KTriggerAfterCompletion)
              && t[IndexOf(t, KTriggerAfterCompletion)]
                 == TriggerAfterCompletion(ProcessedRequest(request, sc), MappedHandler(sc),
                                           if f.IsException() then f else NestedServletException(HandlerProcessingFailed, f))
  {
    var t := Expected(request, sc);
    CalledAtMostOnce(request, sc, KTriggerAfterCompletion);
    OccursIffReaches(request, sc, KTriggerAfterCompletion);
    OccursIffReaches(request, sc, KProcessResult);
    if Occurs(t, KTriggerAfterCompletion) {
      ExpectedInProgramOrder(request, sc);
      OrderOfCalls(t, KProcessResult, KTriggerAfterCompletion);
      TheCall(request, sc, KTriggerAfterCompletion);
    }
  }

  /**
   * Only a failure of the calls of lines 81-97 escapes doDispatch, and a
   * failure of the finally block replaces one of triggerAfterCompletion.
   */
  lemma OnlyLateFailuresEscape(request: RequestRef, sc: Scenario)
    ensures var t, c := Expected(request, sc), Outcome(request, sc);
            c.Abrupt? ==>
              || (Occurs(t, KTriggerAfterCompletion) && sc.triggerAfterCompletion == Throws(c.thrown))
              || (Occurs(t, KAfterConcurrentStarted) && sc.applyAfterConcurrentHandlingStarted == Throws(c.thrown))
              || (Occurs(t, KCleanupMultipart) && sc.cleanupMultipart == Throws(c.thrown))
    ensures var t, c := Expected(request, sc), Outcome(request, sc);
            && (Occurs(t, KAfterConcurrentStarted) && sc.applyAfterConcurrentHandlingStarted.Throws? ==>
                  c == Abrupt(sc.applyAfterConcurrentHandlingStarted.thrown))
            && (Occurs(t, KCleanupMultipart) && sc.cleanupMultipart.Throws? ==> c == Abrupt(sc.cleanupMultipart.thrown))
            && (Occurs(t, KTriggerAfterCompletion) && sc.triggerAfterCompletion.Throws?
                && !(Occurs(t, KAfterConcurrentStarted) && sc.applyAfterConcurrentHandlingStarted.Throws?)
                && !(Occurs(t, KCleanupMultipart) && sc.cleanupMultipart.Throws?)
                ==> c == Abrupt(sc.triggerAfterCompletion.thrown))
  {
    OccursIffReaches(request, sc, KTriggerAfterCompletion);
    OccursIffReaches(request, sc, KAfterConcurrentStarted);
    OccursIffReaches(request, sc, KCleanupMultipart);
  }
}
