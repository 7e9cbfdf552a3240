/**
 * The values that flow through one call of the dispatcher: the throwables the
 * collaborators may raise, what each collaborator call does in one scenario,
 * and the events a dispatch records, in the order the dispatcher makes the calls.
 */
module DispatchTypes {

  datatype Option<+T> = None | Some(value: T)

  /** Reference identities of the objects the dispatcher passes around. */
  type RequestRef = nat      // HttpServletRequest
  type ChainRef = nat        // HandlerExecutionChain
  type AdapterRef = nat      // HandlerAdapter
  type ModelAndViewRef = nat // ModelAndView

  /** The message a NestedServletException is created with. */
  datatype WrapMessage = HandlerDispatchFailed | HandlerProcessingFailed

  /**
   * A Java throwable, reduced to the distinction the dispatcher makes:
   * an Exception (caught by `catch (Exception ex)`) or any other Throwable
   * (an Error), plus the NestedServletException the dispatcher creates itself.
   */
  datatype Throwable =
    | Exception(id: nat)
    | Error(id: nat)
    | NestedServletException(message: WrapMessage, cause: Throwable)
  {
    /** True when `catch (Exception ex)` catches this throwable. */
    predicate IsException() {
      !Error?
    }
  }

  /**
   * The pair of catch clauses `catch (Exception ex) { .. ex .. }` followed by
   * `catch (Throwable err) { .. new NestedServletException(msg, err) .. }`:
   * what the handler of the caught throwable goes on with.
   */
  function Capture(t: Throwable, msg: WrapMessage): (r: Throwable)
    ensures r.IsException()
    ensures r == t <==> t.IsException()
    ensures r != t ==> r == NestedServletException(msg, t)
  {
    if t.IsException() then t else NestedServletException(msg, t)
  }

  /** What one call of a collaborator does: it returns a value or throws. */
  datatype Call<+T> = Returns(value: T) | Throws(thrown: Throwable)

  /** The HTTP method of the original request, as far as the dispatcher distinguishes it. */
  datatype HttpMethod = GET | HEAD | OtherMethod

  /**
   * One scenario of the collaborators of doDispatch: what each call does when
   * it is made. A call that is never made leaves its field unused.
   */
  datatype Scenario = Scenario(
    httpMethod: HttpMethod,                      // request.getMethod()
    asyncOnEntry: bool,                          // asyncManager.isConcurrentHandlingStarted() before handle
    checkMultipart: Call<RequestRef>,            // may return the same or a substituted request
    getHandler: Call<Option<ChainRef>>,          // None: no handler matched
    noHandlerFound: Call<()>,
    getHandlerAdapter: Call<AdapterRef>,
    getLastModified: Call<int>,
    checkNotModified: Call<bool>,
    applyPreHandle: Call<bool>,
    handle: Call<Option<ModelAndViewRef>>,       // None: the handler returned a null ModelAndView
    handleStartsAsync: bool,                     // handle starts concurrent handling
    applyDefaultViewName: Call<()>,
    applyPostHandle: Call<()>,
    processDispatchResult: Call<()>,
    triggerAfterCompletion: Call<()>,
    applyAfterConcurrentHandlingStarted: Call<()>,
    cleanupMultipart: Call<()>
  )

  /** The calls doDispatch makes, with the arguments that identify them. */
  datatype Event =
    | CheckMultipart(request: RequestRef)
    | GetHandler(request: RequestRef)
    | NoHandlerFound(request: RequestRef)
    | GetAdapter(chain: ChainRef)
    | GetLastModified(adapter: AdapterRef, request: RequestRef, chain: ChainRef)
    | CheckNotModified(request: RequestRef, lastModified: int)
    | PreHandle(request: RequestRef, chain: ChainRef)
    | Handle(adapter: AdapterRef, request: RequestRef, chain: ChainRef)
    | DefaultViewName(request: RequestRef, mv: Option<ModelAndViewRef>)
    | PostHandle(request: RequestRef, chain: ChainRef, mv: Option<ModelAndViewRef>)
    | ProcessResult(request: RequestRef, handler: Option<ChainRef>, mv: Option<ModelAndViewRef>,
                    exception: Option<Throwable>)
    | TriggerAfterCompletion(request: RequestRef, handler: Option<ChainRef>, failure: Throwable)
    | AfterConcurrentStarted(request: RequestRef, chain: ChainRef)
    | CleanupMultipart(request: RequestRef)

  /** The call an event records, without its arguments. */
  datatype Kind =
    | KCheckMultipart | KGetHandler | KNoHandlerFound | KGetAdapter
    | KGetLastModified | KCheckNotModified | KPreHandle | KHandle
    | KDefaultViewName | KPostHandle | KProcessResult | KTriggerAfterCompletion
    | KAfterConcurrentStarted | KCleanupMultipart

  function KindOf(e: Event): (k: Kind) {
    match e
    case CheckMultipart(_) => KCheckMultipart
    case GetHandler(_) => KGetHandler
    case NoHandlerFound(_) => KNoHandlerFound
    case GetAdapter(_) => KGetAdapter
    case GetLastModified(_, _, _) => KGetLastModified
    case CheckNotModified(_, _) => KCheckNotModified
    case PreHandle(_, _) => KPreHandle
    case Handle(_, _, _) => KHandle
    case DefaultViewName(_, _) => KDefaultViewName
    case PostHandle(_, _, _) => KPostHandle
    case ProcessResult(_, _, _, _) => KProcessResult
    case TriggerAfterCompletion(_, _, _) => KTriggerAfterCompletion
    case AfterConcurrentStarted(_, _) => KAfterConcurrentStarted
    case CleanupMultipart(_) => KCleanupMultipart
  }

  /** The position of each call site in the text of doDispatch. */
  function Rank(k: Kind): (n: nat) {
    match k
    case KCheckMultipart => 0
    case KGetHandler => 1
    case KNoHandlerFound => 2
    case KGetAdapter => 3
    case KGetLastModified => 4
    case KCheckNotModified => 5
    case KPreHandle => 6
    case KHandle => 7
    case KDefaultViewName => 8
    case KPostHandle => 9
    case KProcessResult => 10
    case KTriggerAfterCompletion => 11
    case KAfterConcurrentStarted => 12
    case KCleanupMultipart => 13
  }

  /** How doDispatch ends: it returns, or a throwable propagates to its caller. */
  datatype Completion = Normal | Abrupt(thrown: Throwable)
}
