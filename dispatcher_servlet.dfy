/**
 * DispatcherServlet.doDispatch with the locals of the original method.
 *
 * The inner try statement (lines 12-73) is the method DispatchToHandler: it
 * declares the locals that doDispatch declares at lines 2-10 and hands them back
 * once control has left it. A throwable leaving its try block is stored
 * in `thrown` and control breaks out of the labelled block `innerTry` to the
 * catch clauses; an early `return` sets `returned` and breaks out of it too,
 * and DoDispatch then skips everything up to the finally block.
 */
module DispatcherServlet {
  import opened DispatchTypes
  import opened DispatchSpec

  /** The locals once control has left the try block of lines 12-65, by any exit. */
  ghost predicate LeftInnerTry(request: RequestRef, sc: Scenario, trace: seq<Event>,
                               processedRequest: RequestRef, mappedHandler: Option<ChainRef>,
                               multipartRequestParsed: bool, concurrentHandlingStarted: bool,
                               mv: Option<ModelAndViewRef>, thrown: Option<Throwable>, returned: bool)
  {
    && trace == InnerEvents(request, sc)
    && processedRequest == ProcessedRequest(request, sc)
    && mappedHandler == MappedHandler(sc)
    && multipartRequestParsed == Substituted(request, sc)
    && concurrentHandlingStarted == ConcurrentHandlingStarted(sc)
    && mv == ModelAndView(sc)
    && thrown == InnerFailure(sc)
    && returned == ReturnsEarly(sc)
  }

  // The calls of the inner try at each of its exits, in the shape in which
  // DoDispatch builds its trace; each exit is a lemma of its own so that one
  // proof obligation covers one path through the method.

  lemma InnerEventsMultipartThrows(request: RequestRef, sc: Scenario)
    requires sc.checkMultipart.Throws?
    ensures InnerEvents(request, sc) == [CheckMultipart(request)]
  {
  }

  lemma InnerEventsGetHandlerThrows(request: RequestRef, sc: Scenario)
    requires MultipartChecked(sc) && sc.getHandler.Throws?
    ensures InnerEvents(request, sc) == [CheckMultipart(request)] + [GetHandler(sc.checkMultipart.value)]
  {
  }

  lemma InnerEventsNoHandler(request: RequestRef, sc: Scenario)
    requires NoHandler(sc)
    ensures var p := sc.checkMultipart.value;
            InnerEvents(request, sc) == [CheckMultipart(request)] + [GetHandler(p)] + [NoHandlerFound(p)]
  {
  }

  /** The calls up to the handler adapter: checkMultipart, getHandler, getHandlerAdapter. */
  function LookupEvents(request: RequestRef, sc: Scenario): (t: seq<Event>)
    requires HandlerFound(sc)
  {
    [CheckMultipart(request)] + [GetHandler(sc.checkMultipart.value)] + [GetAdapter(Chain(sc))]
  }

  lemma InnerEventsAdapterThrows(request: RequestRef, sc: Scenario)
    requires HandlerFound(sc) && sc.getHandlerAdapter.Throws?
    ensures InnerEvents(request, sc) == LookupEvents(request, sc)
  {
  }

  lemma InnerEventsLastModifiedThrows(request: RequestRef, sc: Scenario)
    requires ConsultsLastModified(sc) && sc.getLastModified.Throws?
    ensures InnerEvents(request, sc)
            == LookupEvents(request, sc) + [GetLastModified(Adapter(sc), request, Chain(sc))]
  {
  }

  /** The calls of lines 14-41 once the last-modified check, if made, has returned. */
  function CheckedEvents(request: RequestRef, sc: Scenario): (t: seq<Event>)
    requires LastModifiedKnown(sc)
  {
    LookupEvents(request, sc) + [GetLastModified(Adapter(sc), request, Chain(sc))]
    + [CheckNotModified(request, sc.getLastModified.value)]
  }

  lemma InnerEventsNotModifiedStops(request: RequestRef, sc: Scenario)
    requires LastModifiedKnown(sc) && (sc.checkNotModified.Throws? || NotModifiedGet(sc))
    ensures InnerEvents(request, sc) == CheckedEvents(request, sc)
  {
  }

  /** The calls of lines 14-47 when applyPreHandle is called. */
  function PreHandledEvents(request: RequestRef, sc: Scenario): (t: seq<Event>)
    requires ReachesPreHandle(sc)
  {
    var pre := if IsGetOrHead(sc.httpMethod) then CheckedEvents(request, sc) else LookupEvents(request, sc);
    pre + [PreHandle(sc.checkMultipart.value, Chain(sc))]
  }

  lemma InnerEventsPreHandleStops(request: RequestRef, sc: Scenario)
    requires ReachesPreHandle(sc) && sc.applyPreHandle != Returns(true)
    ensures InnerEvents(request, sc) == PreHandledEvents(request, sc)
  {
  }

  lemma InnerEventsHandleStops(request: RequestRef, sc: Scenario)
    requires ReachesHandle(sc) && (sc.handle.Throws? || ConcurrentHandlingStarted(sc))
    ensures InnerEvents(request, sc)
            == PreHandledEvents(request, sc) + [Handle(Adapter(sc), sc.checkMultipart.value, Chain(sc))]
  {
  }

  lemma InnerEventsDefaultViewNameThrows(request: RequestRef, sc: Scenario)
    requires ReachesDefaultViewName(sc) && sc.applyDefaultViewName.Throws?
    ensures var p := sc.checkMultipart.value;
            InnerEvents(request, sc)
            == PreHandledEvents(request, sc) + [Handle(Adapter(sc), p, Chain(sc))]
               + [DefaultViewName(p, ModelAndView(sc))]
  {
  }

  lemma InnerEventsPostHandleReached(request: RequestRef, sc: Scenario)
    requires ReachesPostHandle(sc)
    ensures var p := sc.checkMultipart.value;
            InnerEvents(request, sc)
            == PreHandledEvents(request, sc) + [Handle(Adapter(sc), p, Chain(sc))]
               + [DefaultViewName(p, ModelAndView(sc))] + [PostHandle(p, Chain(sc), ModelAndView(sc))]
  {
  }

  /**
   * Lines 12-73: the calls up to the handler's post-processing, and the catch
   * clauses that turn a throwable into dispatchException. `returned` is true
   * when one of the `return` statements of lines 26, 42, 48 and 58 ran.
   */
  method DispatchToHandler(request: RequestRef, sc: Scenario)
    returns (trace: seq<Event>, processedRequest: RequestRef, mappedHandler: Option<ChainRef>,
             multipartRequestParsed: bool, concurrentHandlingStarted: bool,
             mv: Option<ModelAndViewRef>, dispatchException: Option<Throwable>, returned: bool)
    ensures trace == InnerEvents(request, sc)
    ensures processedRequest == ProcessedRequest(request, sc)
    ensures mappedHandler == MappedHandler(sc)
    ensures multipartRequestParsed == Substituted(request, sc)
    ensures concurrentHandlingStarted == ConcurrentHandlingStarted(sc)
    ensures mv == ModelAndView(sc)
    ensures returned == ReturnsEarly(sc)
    ensures dispatchException == DispatchException(sc)
  {
    processedRequest := request;
    mappedHandler := None;
    multipartRequestParsed := false;
    // the async manager of the request (line 6); handle may start concurrent handling
    concurrentHandlingStarted := sc.asyncOnEntry;
    mv := None;
    dispatchException := None;
    returned := false;
    var thrown: Option<Throwable> := None;

    label innerTry: {
      trace := [CheckMultipart(request)];
      if sc.checkMultipart.Throws? {
        thrown := Some(sc.checkMultipart.thrown);
        InnerEventsMultipartThrows(request, sc);
        assert LeftInnerTry(request, sc, trace, processedRequest, mappedHandler,
                            multipartRequestParsed, concurrentHandlingStarted, mv, thrown, returned);
        break innerTry;
      }
      processedRequest := sc.checkMultipart.value;
      multipartRequestParsed := processedRequest != request;

      trace := trace + [GetHandler(processedRequest)];
      if sc.getHandler.Throws? {
        thrown := Some(sc.getHandler.thrown);
        InnerEventsGetHandlerThrows(request, sc);
        assert LeftInnerTry(request, sc, trace, processedRequest, mappedHandler,
                            multipartRequestParsed, concurrentHandlingStarted, mv, thrown, returned);
        break innerTry;
      }
      mappedHandler := sc.getHandler.value;
      if mappedHandler.None? {
        trace := trace + [NoHandlerFound(processedRequest)];
        InnerEventsNoHandler(request, sc);
        if sc.noHandlerFound.Throws? {
          thrown := Some(sc.noHandlerFound.thrown);
          assert LeftInnerTry(request, sc, trace, processedRequest, mappedHandler,
                              multipartRequestParsed, concurrentHandlingStarted, mv, thrown, returned);
          break innerTry;
        }
        returned := true;  // line 26
        assert LeftInnerTry(request, sc, trace, processedRequest, mappedHandler,
                            multipartRequestParsed, concurrentHandlingStarted, mv, thrown, returned);
        break innerTry;
      }
      var chain := mappedHandler.value;

      trace := trace + [GetAdapter(chain)];
      if sc.getHandlerAdapter.Throws? {
        thrown := Some(sc.getHandlerAdapter.thrown);
        InnerEventsAdapterThrows(request, sc);
        assert LeftInnerTry(request, sc, trace, processedRequest, mappedHandler,
                            multipartRequestParsed, concurrentHandlingStarted, mv, thrown, returned);
        break innerTry;
      }
      var ha := sc.getHandlerAdapter.value;

      // the method and the last-modified check use the original request
      var isGet := sc.httpMethod == GET;
      if isGet || sc.httpMethod == HEAD {
        trace := trace + [GetLastModified(ha, request, chain)];
        if sc.getLastModified.Throws? {
          thrown := Some(sc.getLastModified.thrown);
          InnerEventsLastModifiedThrows(request, sc);
          assert LeftInnerTry(request, sc, trace, processedRequest, mappedHandler,
                              multipartRequestParsed, concurrentHandlingStarted, mv, thrown, returned);
          break innerTry;
        }
        var lastModified := sc.getLastModified.value;
        trace := trace + [CheckNotModified(request, lastModified)];
        if sc.checkNotModified.Throws? {
          thrown := Some(sc.checkNotModified.thrown);
          InnerEventsNotModifiedStops(request, sc);
          assert LeftInnerTry(request, sc, trace, processedRequest, mappedHandler,
                              multipartRequestParsed, concurrentHandlingStarted, mv, thrown, returned);
          break innerTry;
        }
        if sc.checkNotModified.value && isGet {
          returned := true;  // line 42
          InnerEventsNotModifiedStops(request, sc);
          assert LeftInnerTry(request, sc, trace, processedRequest, mappedHandler,
                              multipartRequestParsed, concurrentHandlingStarted, mv, thrown, returned);
          break innerTry;
        }
      }

      trace := trace + [PreHandle(processedRequest, chain)];
      if sc.applyPreHandle.Throws? {
        thrown := Some(sc.applyPreHandle.thrown);
        InnerEventsPreHandleStops(request, sc);
        assert LeftInnerTry(request, sc, trace, processedRequest, mappedHandler,
                            multipartRequestParsed, concurrentHandlingStarted, mv, thrown, returned);
        break innerTry;
      }
      if !sc.applyPreHandle.value {
        returned := true;  // line 48
        InnerEventsPreHandleStops(request, sc);
        assert LeftInnerTry(request, sc, trace, processedRequest, mappedHandler,
                            multipartRequestParsed, concurrentHandlingStarted, mv, thrown, returned);
        break innerTry;
      }

      trace := trace + [Handle(ha, processedRequest, chain)];
      concurrentHandlingStarted := concurrentHandlingStarted || sc.handleStartsAsync;
      if sc.handle.Throws? {
        thrown := Some(sc.handle.thrown);
        InnerEventsHandleStops(request, sc);
        assert LeftInnerTry(request, sc, trace, processedRequest, mappedHandler,
                            multipartRequestParsed, concurrentHandlingStarted, mv, thrown, returned);
        break innerTry;
      }
      mv := sc.handle.value;

      if concurrentHandlingStarted {
        returned := true;  // line 58
        InnerEventsHandleStops(request, sc);
        assert LeftInnerTry(request, sc, trace, processedRequest, mappedHandler,
                            multipartRequestParsed, concurrentHandlingStarted, mv, thrown, returned);
        break innerTry;
      }

      trace := trace + [DefaultViewName(processedRequest, mv)];
      if sc.applyDefaultViewName.Throws? {
        thrown := Some(sc.applyDefaultViewName.thrown);
        InnerEventsDefaultViewNameThrows(request, sc);
        assert LeftInnerTry(request, sc, trace, processedRequest, mappedHandler,
                            multipartRequestParsed, concurrentHandlingStarted, mv, thrown, returned);
        break innerTry;
      }

      trace := trace + [PostHandle(processedRequest, chain, mv)];
      InnerEventsPostHandleReached(request, sc);
      if sc.applyPostHandle.Throws? {
        thrown := Some(sc.applyPostHandle.thrown);
      }
      assert LeftInnerTry(request, sc, trace, processedRequest, mappedHandler,
                          multipartRequestParsed, concurrentHandlingStarted, mv, thrown, returned);
    }

    // catch (Exception ex) / catch (Throwable err), lines 66-73
    if thrown.Some? {
      dispatchException := Some(Capture(thrown.value, HandlerDispatchFailed));
    }
  }

  // The calls after the inner try statement, in the shape in which DoDispatch builds them.

  lemma EventsOnEarlyReturn(request: RequestRef, sc: Scenario)
    requires ReturnsEarly(sc)
    ensures EventsBeforeFinally(request, sc) == InnerEvents(request, sc)
  {
  }

  lemma EventsOnResultProcessed(request: RequestRef, sc: Scenario)
    requires !ReturnsEarly(sc) && sc.processDispatchResult.Returns?
    ensures EventsBeforeFinally(request, sc)
            == InnerEvents(request, sc)
               + [ProcessResult(ProcessedRequest(request, sc), MappedHandler(sc), ModelAndView(sc),
                                DispatchException(sc))]
  {
  }

  lemma EventsOnResultFailed(request: RequestRef, sc: Scenario)
    requires !ReturnsEarly(sc) && sc.processDispatchResult.Throws?
    ensures var p := ProcessedRequest(request, sc);
            EventsBeforeFinally(request, sc)
            == InnerEvents(request, sc)
               + [ProcessResult(p, MappedHandler(sc), ModelAndView(sc), DispatchException(sc))]
               + [TriggerAfterCompletion(p, MappedHandler(sc),
                                         Capture(sc.processDispatchResult.thrown, HandlerProcessingFailed))]
  {
  }

  lemma ExpectedWithAsyncHook(request: RequestRef, sc: Scenario)
    requires ReachesAfterConcurrentStarted(sc)
    ensures Expected(request, sc)
            == EventsBeforeFinally(request, sc) + [AfterConcurrentStarted(ProcessedRequest(request, sc), Chain(sc))]
  {
  }

  lemma ExpectedWithCleanup(request: RequestRef, sc: Scenario)
    requires ReachesCleanup(request, sc)
    ensures Expected(request, sc)
            == EventsBeforeFinally(request, sc) + [CleanupMultipart(ProcessedRequest(request, sc))]
  {
  }

  lemma ExpectedWithoutHook(request: RequestRef, sc: Scenario)
    requires !ReachesAfterConcurrentStarted(sc) && !ReachesCleanup(request, sc)
    ensures Expected(request, sc) == EventsBeforeFinally(request, sc)
  {
  }

  /**
   * doDispatch: the calls it makes, in order and with their arguments, and
   * how it ends, in every scenario of its collaborators.
   */
  method DoDispatch(request: RequestRef, sc: Scenario) returns (trace: seq<Event>, completion: Completion)
    ensures trace == Expected(request, sc)
    ensures completion == Outcome(request, sc)
  {
    completion := Normal;
    // the outer try, lines 8-86; its inner try statement catches every throwable
    var processedRequest, mappedHandler, multipartRequestParsed, concurrentHandlingStarted, mv,
        dispatchException, returned;
    trace, processedRequest, mappedHandler, multipartRequestParsed, concurrentHandlingStarted, mv,
      dispatchException, returned := DispatchToHandler(request, sc);
    if returned {
      EventsOnEarlyReturn(request, sc);
    } else {
      trace := trace + [ProcessResult(processedRequest, mappedHandler, mv, dispatchException)];
      if sc.processDispatchResult.Throws? {
        // catch (Exception ex) / catch (Throwable err), lines 80-86
        var failure := Capture(sc.processDispatchResult.thrown, HandlerProcessingFailed);
        trace := trace + [TriggerAfterCompletion(processedRequest, mappedHandler, failure)];
        if sc.triggerAfterCompletion.Throws? {
          completion := Abrupt(sc.triggerAfterCompletion.thrown);
        }
        EventsOnResultFailed(request, sc);
      } else {
        EventsOnResultProcessed(request, sc);
      }
    }

    // finally, lines 87-100
    if concurrentHandlingStarted {
      if mappedHandler.Some? {
        trace := trace + [AfterConcurrentStarted(processedRequest, mappedHandler.value)];
        ExpectedWithAsyncHook(request, sc);
        if sc.applyAfterConcurrentHandlingStarted.Throws? {
          completion := Abrupt(sc.applyAfterConcurrentHandlingStarted.thrown);
        }
      } else {
        ExpectedWithoutHook(request, sc);
      }
    } else if multipartRequestParsed {
      trace := trace + [CleanupMultipart(processedRequest)];
      ExpectedWithCleanup(request, sc);
      if sc.cleanupMultipart.Throws? {
        completion := Abrupt(sc.cleanupMultipart.thrown);
      }
    } else {
      ExpectedWithoutHook(request, sc);
    }
  }
}
