# doDispatch of Spring MVC's DispatcherServlet, modelled in Dafny

`DispatcherServlet.doDispatch` handles one HTTP request. It:

- lets a multipart resolver substitute the request;
- looks up a handler execution chain and a handler adapter;
- answers a not-modified GET early;
- runs the interceptors' pre-handle step, invokes the handler, applies a default view name and runs the post-handle step;
- turns any failure into a `dispatchException` for `processDispatchResult`;
- calls `triggerAfterCompletion` when result processing itself fails;
- ends in a finally block that calls either the interceptors' async hook or the multipart cleanup.

The model keeps the method's control flow and its locals. What each collaborator does is an input. The model proves what the method calls, in which order and with which arguments, and how it ends, in every combination of collaborator behaviours.

## How the model is built

- **Collaborators as a scenario.** A `Scenario` (`dispatch_types.dfy`) holds one field per collaborator call, saying what that call does when it is made. The type `Call<T>` is either `Returns(value)` or `Throws(throwable)`. Requests, handler chains, adapters and ModelAndViews are reference identities (`nat`), so `processedRequest != request` is a reference comparison, as in Java.
- **Throwables.** A throwable is an `Exception`, an `Error` (any other Throwable), or a `NestedServletException(message, cause)`. `Capture` models a pair of catch clauses: `catch (Exception ex)` followed by `catch (Throwable err)` with a wrap.
- **The method itself.** `DispatcherServlet.DoDispatch` is doDispatch, and it records every collaborator call as an `Event` in a trace. The inner try statement (lines 12-73) is the method `DispatcherServlet.DispatchToHandler`. It sets the locals `processedRequest`, `mappedHandler`, `multipartRequestParsed`, `mv` and `dispatchException` step by step, and hands them back to `DoDispatch`.
  - A throwable that leaves the inner try block is kept in `thrown`, and a `break` out of the labelled block goes to the catch clauses.
  - The four early `return`s (lines 26, 42, 48, 58) set `returned`, and `DoDispatch` then goes straight to the finally block.
- **The async manager.** It is a flag. Its value on entry is part of the scenario, and `handle` may set it. The flag is read where the source reads it, at lines 57 and 88.
- **The specification the methods are proved against** is `dispatch_spec.dfy`:
  - one predicate per call site, saying when control reaches it (`ReachesPreHandle`, `ReachesCleanup`, …);
  - `Expected`: the calls made, with their arguments, in the order of the text;
  - `Outcome`: the completion, either normal or with the throwable that escapes.

  `DispatchProperties` gives a second definition of the trace, `CallsBefore`, built by recursion over the call sites. It proves the trace equal to `Expected`, in program order, and containing each reached call exactly once. `DispatchGuarantees` proves the method's sequencing rules about that trace and completion.

Points of the code's behaviour that the model keeps:

- A failure of `getHandlerAdapter` (no adapter for the handler) is inside the inner try, so it is captured and handed to `processDispatchResult`; it does not propagate directly.
- A Throwable other than an Exception from lines 14-64 is wrapped with "Handler dispatch failed". "Handler processing failed" is used only for a failure of `processDispatchResult` (line 85).
- A failure in the finally block replaces whatever was propagating, as in the Java language, rather than the original failure being kept.
- When `handle` throws after starting concurrent handling, the return at line 58 is not reached, so `processDispatchResult` is still called.

## Model

| member | source | states |
|---|---|---|
| DispatcherServlet.DoDispatch | springmvc/DispatcherServletDoDispatch.java:1-101 | the calls made are exactly `Expected`: every call site control reaches, once each, in the order of the text, with the arguments the code passes; the method ends as `Outcome` says, normally or with the throwable that escapes it |
| DispatcherServlet.DispatchToHandler | springmvc/DispatcherServletDoDispatch.java:12-73 | after the inner try, each of `processedRequest`, `mappedHandler`, `mv` and the async flag holds the value of the last assignment reached; `multipartRequestParsed` holds exactly when checkMultipart returned a request other than the original; `returned` holds exactly when one of the four returns ran; `dispatchException` is the captured failure of the first call that threw |
| DispatchTypes.Capture | springmvc/DispatcherServletDoDispatch.java:66-73 | the two catch clauses always yield an Exception; it is the caught throwable itself exactly when that was an Exception, otherwise a NestedServletException with the given message and the throwable as cause |
| DispatchProperties.ExpectedIsCallsBefore | springmvc/DispatcherServletDoDispatch.java:14-97 | the trace is the call of each reached call site, taken site by site in the order of the text |
| DispatchProperties.ExpectedInProgramOrder | springmvc/DispatcherServletDoDispatch.java:14-97 | every call comes from a call site later in the text than all calls before it |
| DispatchProperties.OccursIffReaches | springmvc/DispatcherServletDoDispatch.java:14-97 | a collaborator is called if and only if control reaches its call site |
| DispatchProperties.CalledAtMostOnce | springmvc/DispatcherServletDoDispatch.java:14-97 | each collaborator is called once if its call site is reached, never otherwise; in particular processDispatchResult and triggerAfterCompletion at most once |
| DispatchProperties.CallsCarryArguments | springmvc/DispatcherServletDoDispatch.java:14-97 | every call made carries the arguments of its call site: the processed request, the chain, the adapter, the ModelAndView and the captured failure as they stand there |
| DispatchGuarantees.FinallyCallsAtMostOneHook | springmvc/DispatcherServletDoDispatch.java:87-100 | on every path, early returns included, the async hook is called exactly when concurrent handling started and a handler was found; cleanup exactly when it did not start and the request was substituted; never both; the hook called is the last call |
| DispatchGuarantees.CleanupOnlyOfSubstitutedRequest | springmvc/DispatcherServletDoDispatch.java:14-16 | cleanup is called only on the request checkMultipart returned and only when that differs from the original; when checkMultipart throws, the trace is checkMultipart, then processDispatchResult with no handler, no ModelAndView and the captured failure, plus triggerAfterCompletion if that fails; no cleanup |
| DispatchGuarantees.NoHandlerFoundPath | springmvc/DispatcherServletDoDispatch.java:22-27 | with no handler and noHandlerFound returning, the calls are exactly checkMultipart, getHandler and noHandlerFound, then cleanup if the request was substituted and concurrent handling had not started; no adapter, no interceptors, no handle, no processDispatchResult |
| DispatchGuarantees.NoHandlerFoundFailureCaptured | springmvc/DispatcherServletDoDispatch.java:22-100 | with no handler and noHandlerFound throwing, the return is skipped: the calls are checkMultipart, getHandler, noHandlerFound, then processDispatchResult with no handler, no ModelAndView and the captured failure, triggerAfterCompletion if that fails, and cleanup if the request was substituted and concurrent handling had not started; the completion is cleanup's failure, else triggerAfterCompletion's, else normal |
| DispatchGuarantees.LastModifiedOnlyForGetOrHead | springmvc/DispatcherServletDoDispatch.java:37-41 | getLastModified is called exactly when an adapter was found and the method is GET or HEAD; checkNotModified exactly when getLastModified was called and returned, for GET and HEAD alike |
| DispatchGuarantees.LastModifiedUsesOriginalRequest | springmvc/DispatcherServletDoDispatch.java:37-41 | getLastModified and checkNotModified receive the original request, not the processed one, and checkNotModified receives the value getLastModified returned |
| DispatchGuarantees.NotModifiedGetReturnsEarly | springmvc/DispatcherServletDoDispatch.java:41-43 | a not-modified GET ends the calls after checkNotModified: no pre-handle, no handle, no processDispatchResult; only the finally block's hook follows |
| DispatchGuarantees.NotModifiedHeadContinues | springmvc/DispatcherServletDoDispatch.java:41-47 | a not-modified HEAD continues: the pre-handle step is called, after checkNotModified |
| DispatchGuarantees.NotModifiedHeadIgnoresCheck | springmvc/DispatcherServletDoDispatch.java:37-43 | for a HEAD whose checkNotModified returns, the calls and the completion are the same whether it answers not-modified or not |
| DispatchGuarantees.PreHandleFalseSkipsHandling | springmvc/DispatcherServletDoDispatch.java:47-49 | a false pre-handle step skips handle, applyDefaultViewName, applyPostHandle, processDispatchResult and triggerAfterCompletion |
| DispatchGuarantees.HandleAfterLookupAndPreHandle | springmvc/DispatcherServletDoDispatch.java:14-55 | handle is called only after checkMultipart, getHandler, getHandlerAdapter and a pre-handle step that returned true, in that order |
| DispatchGuarantees.AsyncStartedSkipsPostProcessing | springmvc/DispatcherServletDoDispatch.java:57-59 | once handle has returned with concurrent handling started: no default view name, no post-handle, no processDispatchResult, no triggerAfterCompletion, no cleanup; the async hook exactly once, as the last call; only its failure can escape |
| DispatchGuarantees.FailureIsLastInnerCall | springmvc/DispatcherServletDoDispatch.java:14-73 | every call of the inner try except its last one returned, and the failure handed on is exactly what that last call threw, if it threw: the first failure ends the inner try |
| DispatchGuarantees.FailureCaptured | springmvc/DispatcherServletDoDispatch.java:66-78 | a failure of lines 14-64 reaches processDispatchResult, called exactly once, as an Exception unchanged or any other Throwable wrapped as "Handler dispatch failed" |
| DispatchGuarantees.AdapterFailureCaptured | springmvc/DispatcherServletDoDispatch.java:34-78 | a failing getHandlerAdapter is followed directly by processDispatchResult with the handler found, no ModelAndView and the captured failure |
| DispatchGuarantees.HandleFailureStopsPostProcessing | springmvc/DispatcherServletDoDispatch.java:55-64 | a failing handle means no default view name and no post-handle, while processDispatchResult is still called |
| DispatchGuarantees.TriggerAfterCompletionOnlyWhenResultFails | springmvc/DispatcherServletDoDispatch.java:78-86 | triggerAfterCompletion is called at most once, exactly when processDispatchResult was called and threw, after it, with an Exception unchanged or any other Throwable wrapped as "Handler processing failed" |
| DispatchGuarantees.OnlyLateFailuresEscape | springmvc/DispatcherServletDoDispatch.java:78-100 | only a failure of triggerAfterCompletion, the async hook or cleanup escapes, and only if that call was made; a failure in the finally block replaces one of triggerAfterCompletion |

## Left out

- Internals of `checkMultipart`, `getHandler`, `getHandlerAdapter`, `noHandlerFound`, `applyDefaultViewName` and `processDispatchResult` (exception resolvers, view rendering): they are not in the modelled file. Each is a scenario input that returns a value or throws.
- `HandlerExecutionChain`'s `applyPreHandle`, `applyPostHandle`, `applyAfterConcurrentHandlingStarted` and `triggerAfterCompletion`: their bodies, interceptor order and the after-completion prefix rule are not in the modelled file. Each is one opaque call.
- Whether `triggerAfterCompletion` re-throws: its body is not shown. The model lets it return or throw as the scenario says, and proves what follows in either case.
- The `response` argument, servlet I/O, `ServletWebRequest` header parsing and the HTTP-date comparison behind `checkNotModified`. The check is a scenario input: a boolean, or a throw.
- `WebAsyncManager` and real concurrency. The async-started state is a flag: its value on entry is an input, and only `handle` may set it, since the other collaborators are not modelled as starting async processing.
- `WebAsyncUtils.getAsyncManager` (line 6) and the `mappedHandler.getHandler()` getters are not recorded as calls. The model takes them to return without failing. A failure at line 6 would happen outside every try statement, so it would bypass the finally block; that case is not modelled.
- `request.getMethod()` with `HttpMethod.matches` is reduced to an enumeration of GET, HEAD and any other method. String matching is not modelled.
- The Java `long` of `lastModified` is an unbounded `int`. The value is only passed on, never computed with, so its width plays no part.
- Exception class hierarchies beyond Exception versus other Throwable, and the wrapper messages beyond a tag.
