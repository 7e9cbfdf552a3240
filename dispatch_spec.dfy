/**
 * What doDispatch does in one scenario, stated declaratively: for every call
 * site, the condition under which control reaches it; the trace is the calls
 * reached, in the order of their call sites; the completion is the throwable,
 * if any, that escapes the method.
 */
module DispatchSpec {
  import opened DispatchTypes
  import opened Traces

  predicate IsGetOrHead(m: HttpMethod) {
    m == GET || m == HEAD
  }

  /** checkMultipart (line 14) returned. */
  predicate MultipartChecked(sc: Scenario) {
    sc.checkMultipart.Returns?
  }

  /** checkMultipart returned a request other than the original one: multipartRequestParsed (line 16). */
  predicate Substituted(request: RequestRef, sc: Scenario) {
    sc.checkMultipart.Returns? && sc.checkMultipart.value != request
  }

  /** processedRequest from line 14 on: the original request unless checkMultipart returned. */
  function ProcessedRequest(request: RequestRef, sc: Scenario): (p: RequestRef) {
    if sc.checkMultipart.Returns? then sc.checkMultipart.value else request
  }

  /** getHandler (line 22) returned null. */
  predicate NoHandler(sc: Scenario) {
    MultipartChecked(sc) && sc.getHandler == Returns(None)
  }

  /** getHandler returned a handler execution chain. */
  predicate HandlerFound(sc: Scenario) {
    MultipartChecked(sc) && sc.getHandler.Returns? && sc.getHandler.value.Some?
  }

  /** mappedHandler after the inner try: set only when getHandler returned. */
  function MappedHandler(sc: Scenario): (handler: Option<ChainRef>) {
    if MultipartChecked(sc) && sc.getHandler.Returns? then sc.getHandler.value else None
  }

  function Chain(sc: Scenario): (chain: ChainRef)
    requires HandlerFound(sc)
  {
    sc.getHandler.value.value
  }

  /** getHandlerAdapter (line 34) returned. */
  predicate AdapterFound(sc: Scenario) {
    HandlerFound(sc) && sc.getHandlerAdapter.Returns?
  }

  function Adapter(sc: Scenario): (adapter: AdapterRef)
    requires AdapterFound(sc)
  {
    sc.getHandlerAdapter.value
  }

  /** getLastModified (line 40) is called. */
  predicate ConsultsLastModified(sc: Scenario) {
    AdapterFound(sc) && IsGetOrHead(sc.httpMethod)
  }

  /** getLastModified returned, so checkNotModified (line 41) is called. */
  predicate LastModifiedKnown(sc: Scenario) {
    ConsultsLastModified(sc) && sc.getLastModified.Returns?
  }

  /** The early return at line 42: a GET whose resource is not modified. */
  predicate NotModifiedGet(sc: Scenario) {
    LastModifiedKnown(sc) && sc.checkNotModified == Returns(true) && sc.httpMethod == GET
  }

  /** applyPreHandle (line 47) is called. */
  predicate ReachesPreHandle(sc: Scenario) {
    && AdapterFound(sc)
    && (IsGetOrHead(sc.httpMethod) ==> sc.getLastModified.Returns? && sc.checkNotModified.Returns?)
    && !NotModifiedGet(sc)
  }

  /** handle (line 55) is called. */
  predicate ReachesHandle(sc: Scenario) {
    ReachesPreHandle(sc) && sc.applyPreHandle == Returns(true)
  }

  /** handle returned a (possibly null) ModelAndView. */
  predicate Handled(sc: Scenario) {
    ReachesHandle(sc) && sc.handle.Returns?
  }

  /** The state of the async manager after handle, read at lines 57 and 88. */
  predicate ConcurrentHandlingStarted(sc: Scenario) {
    sc.asyncOnEntry || (ReachesHandle(sc) && sc.handleStartsAsync)
  }

  /** mv after the inner try: set only when handle returned. */
  function ModelAndView(sc: Scenario): (mv: Option<ModelAndViewRef>) {
    if Handled(sc) then sc.handle.value else None
  }

  /** applyDefaultViewName (line 61) is called. */
  predicate ReachesDefaultViewName(sc: Scenario) {
    Handled(sc) && !ConcurrentHandlingStarted(sc)
  }

  /** applyPostHandle (line 64) is called. */
  predicate ReachesPostHandle(sc: Scenario) {
    ReachesDefaultViewName(sc) && sc.applyDefaultViewName.Returns?
  }

  /** One of the four `return` statements of the inner try (lines 26, 42, 48, 58) is executed. */
  predicate ReturnsEarly(sc: Scenario) {
    || (NoHandler(sc) && sc.noHandlerFound.Returns?)
    || NotModifiedGet(sc)
    || (ReachesPreHandle(sc) && sc.applyPreHandle == Returns(false))
    || (Handled(sc) && ConcurrentHandlingStarted(sc))
  }

  /** The throwable that ends the inner try (lines 14-64), if one does. */
  function InnerFailure(sc: Scenario): (failure: Option<Throwable>) {
    if sc.checkMultipart.Throws? then Some(sc.checkMultipart.thrown)
    else if sc.getHandler.Throws? then Some(sc.getHandler.thrown)
    else if sc.getHandler.value.None? then
      if sc.noHandlerFound.Throws? then Some(sc.noHandlerFound.thrown) else None
    else if sc.getHandlerAdapter.Throws? then Some(sc.getHandlerAdapter.thrown)
    else if IsGetOrHead(sc.httpMethod) && sc.getLastModified.Throws? then Some(sc.getLastModified.thrown)
    else if IsGetOrHead(sc.httpMethod) && sc.checkNotModified.Throws? then Some(sc.checkNotModified.thrown)
    else if NotModifiedGet(sc) then None
    else if sc.applyPreHandle.Throws? then Some(sc.applyPreHandle.thrown)
    else if !sc.applyPreHandle.value then None
    else if sc.handle.Throws? then Some(sc.handle.thrown)
    else if ConcurrentHandlingStarted(sc) then None
    else if sc.applyDefaultViewName.Throws? then Some(sc.applyDefaultViewName.thrown)
    else if sc.applyPostHandle.Throws? then Some(sc.applyPostHandle.thrown)
    else None
  }

  /** dispatchException as handed to processDispatchResult (lines 66-73). */
  function DispatchException(sc: Scenario): (dispatchException: Option<Throwable>) {
    match InnerFailure(sc)
    case None => None
    case Some(t) => Some(Capture(t, HandlerDispatchFailed))
  }

  /** processDispatchResult (line 78) is called: the inner try did not return. */
  predicate ReachesProcessResult(sc: Scenario) {
    !ReturnsEarly(sc)
  }

  /** triggerAfterCompletion (line 81 or 84) is called: processDispatchResult threw. */
  predicate ReachesTriggerAfterCompletion(sc: Scenario) {
    ReachesProcessResult(sc) && sc.processDispatchResult.Throws?
  }

  /** applyAfterConcurrentHandlingStarted (line 91) is called. */
  predicate ReachesAfterConcurrentStarted(sc: Scenario) {
    ConcurrentHandlingStarted(sc) && HandlerFound(sc)
  }

  /** cleanupMultipart (line 97) is called. */
  predicate ReachesCleanup(request: RequestRef, sc: Scenario) {
    !ConcurrentHandlingStarted(sc) && Substituted(request, sc)
  }

  /** Control reaches the call site of kind `k`. */
  predicate Reaches(request: RequestRef, sc: Scenario, k: Kind) {
    match k
    case KCheckMultipart => true
    case KGetHandler => MultipartChecked(sc)
    case KNoHandlerFound => NoHandler(sc)
    case KGetAdapter => HandlerFound(sc)
    case KGetLastModified => ConsultsLastModified(sc)
    case KCheckNotModified => LastModifiedKnown(sc)
    case KPreHandle => ReachesPreHandle(sc)
    case KHandle => ReachesHandle(sc)
    case KDefaultViewName => ReachesDefaultViewName(sc)
    case KPostHandle => ReachesPostHandle(sc)
    case KProcessResult => ReachesProcessResult(sc)
    case KTriggerAfterCompletion => ReachesTriggerAfterCompletion(sc)
    case KAfterConcurrentStarted => ReachesAfterConcurrentStarted(sc)
    case KCleanupMultipart => ReachesCleanup(request, sc)
  }

  /** The calls the inner try (lines 14-64) makes, in the order it makes them. */
  function InnerEvents(request: RequestRef, sc: Scenario): (t: seq<Event>) {
    var p := ProcessedRequest(request, sc);
    [CheckMultipart(request)]
    + (if MultipartChecked(sc) then [GetHandler(p)] else [])
    + (if NoHandler(sc) then [NoHandlerFound(p)] else [])
    + (if HandlerFound(sc) then [GetAdapter(Chain(sc))] else [])
    + (if ConsultsLastModified(sc) then [GetLastModified(Adapter(sc), request, Chain(sc))] else [])
    + (if LastModifiedKnown(sc) then [CheckNotModified(request, sc.getLastModified.value)] else [])
    + (if ReachesPreHandle(sc) then [PreHandle(p, Chain(sc))] else [])
    + (if ReachesHandle(sc) then [Handle(Adapter(sc), p, Chain(sc))] else [])
    + (if ReachesDefaultViewName(sc) then [DefaultViewName(p, ModelAndView(sc))] else [])
    + (if ReachesPostHandle(sc) then [PostHandle(p, Chain(sc), ModelAndView(sc))] else [])
  }

  /** The calls made before the finally block: the inner try's, then those of lines 78-86. */
  function EventsBeforeFinally(request: RequestRef, sc: Scenario): (t: seq<Event>) {
    var p := ProcessedRequest(request, sc);
    InnerEvents(request, sc)
    + (if ReachesProcessResult(sc)
       then [ProcessResult(p, MappedHandler(sc), ModelAndView(sc), DispatchException(sc))] else [])
    + (if ReachesTriggerAfterCompletion(sc)
       then [TriggerAfterCompletion(p, MappedHandler(sc),
                                    Capture(sc.processDispatchResult.thrown, HandlerProcessingFailed))]
       else [])
  }

  /** The calls doDispatch makes, with their arguments, in the order they are made. */
  function Expected(request: RequestRef, sc: Scenario): (t: seq<Event>) {
    var p := ProcessedRequest(request, sc);
    EventsBeforeFinally(request, sc)
    + (if ReachesAfterConcurrentStarted(sc) then [AfterConcurrentStarted(p, Chain(sc))] else [])
    + (if ReachesCleanup(request, sc) then [CleanupMultipart(p)] else [])
  }

  /**
   * How doDispatch ends. A throwable from the finally block (lines 87-100)
   * replaces whatever the try statement completed with; otherwise only a
   * throwable from triggerAfterCompletion escapes.
   */
  function Outcome(request: RequestRef, sc: Scenario): (completion: Completion) {
    if ReachesAfterConcurrentStarted(sc) && sc.applyAfterConcurrentHandlingStarted.Throws? then
      Abrupt(sc.applyAfterConcurrentHandlingStarted.thrown)
    else if ReachesCleanup(request, sc) && sc.cleanupMultipart.Throws? then
      Abrupt(sc.cleanupMultipart.thrown)
    else if ReachesTriggerAfterCompletion(sc) && sc.triggerAfterCompletion.Throws? then
      Abrupt(sc.triggerAfterCompletion.thrown)
    else
      Normal
  }
}
