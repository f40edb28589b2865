# Spring 3.2.16 transaction demarcation and web/JDBC selection rules, in Dafny

This project models, and proves properties of, the part of Spring Framework 3.2.16 that
wraps a method call in a transaction, together with six smaller classes from the web and
JDBC layers that follow ordering, selection and caching rules.

- `transaction_aspect.dfy` (module `TransactionAspect`) covers `TransactionAspectSupport`.
  It models the transaction-manager resolution order, the join point identification and
  the naming of nameless attributes. It models the per-thread stack of `TransactionInfo`
  frames, where each frame links back to `oldTransactionInfo`, and
  `invokeWithinTransaction` on both of its paths. The standard path calls getTransaction,
  proceeds, and then commits or rolls back. The callback path goes through a
  callback-preferring manager's `execute`, using `ThrowableHolder` and
  `ThrowableHolderException`.
  - The thread-local holder is the field `current` of a `ThreadContext` object.
  - Every call to a manager or to a target is appended to that object's `log`.
  - The methods are recursive over a `Body`: a target may query
    `currentTransactionStatus` or call another intercepted method.
  - Each method is proved against the pure function `Run`, or against one of its parts
    (`StandardRun`, `StandardTail`, `CallbackRun`, `RunBody`).
- `transaction_properties.dfy` (module `TransactionProperties`) proves properties of
  `Run`. Each target runs once per invocation. When no transaction is needed, no manager
  is called and the outcome passes through. On each exit path it is fixed which of commit
  or rollback is called, and whether it comes before or after the frame is restored. It
  is fixed which throwable the caller sees. The two strategies agree when the manager
  does not fail.
- `handler_mapping.dfy` (module `HandlerMapping`) covers `AbstractHandlerMapping`:
  - interceptor initialization, which sends each entry to the mapped list or the adapted
    list;
  - handler and default-handler resolution;
  - assembly of the `HandlerExecutionChain`.
- `content_negotiation.dfy` (module `ContentNegotiation`) covers
  `ContentNegotiatingViewResolver`:
  - the requested media types (a deduplicated set of compatible combinations);
  - the order of candidate views;
  - the best-view search, with redirect first and then media-type-major order;
  - the 406 or null fallback;
  - delegate filtering.
- `named_value.dfy` (module `NamedValue`) covers `AbstractNamedValueMethodArgumentResolver`:
  - the decision table for missing, empty and default values;
  - the `NamedValueInfo` sanitizing and its per-parameter cache.
- `datasource_proxy.dfy` (module `DataSourceProxy`) covers `TransactionAwareDataSourceProxy`
  and its invocation handler. The handler is a state machine over `target` and `closed`.
  It is given once as the function `Handle` and once as the imperative `Invoke`, which
  is proved equal to it.
- `exception_handler.dfy` (module `ExceptionHandler`) covers
  `ExceptionHandlerExceptionResolver`:
  - handler lookup, which tries the controller first and then the advice beans in order;
  - the per-type resolver cache and the advice cache;
  - how the result is shaped into a `ModelAndView`;
  - the default argument resolvers and return-value handlers.
- `request_body.dfy` (module `RequestBody`) covers `RequestResponseBodyMethodProcessor`:
  - which parameters and return types it supports;
  - validation through the first `Valid…` annotation;
  - the bind-exception rule;
  - recording of the binding result;
  - `handleReturnValue`.
- `wrappers.dfy` holds `Option` and `Result`.

Java exceptions are values: `Outcome`, `Result` or `Option`. Collaborators that are not
part of this model are function-typed fields or parameters. These include the transaction
manager's behaviour, `rollbackOn`, media-type operations, path matching, bean lookup,
validators, message converters and the JDBC driver.


## Model

| member | source | states |
|---|---|---|
| TransactionAspect.BeanOfType | spring-framework-3.2.16.RELEASE/spring-tx/src/main/java/org/springframework/transaction/interceptor/TransactionAspectSupport.java:364 | lookup by type succeeds exactly when there is one candidate and yields it; several candidates give NoUniqueBeanDefinitionException |
| TransactionAspect.DetermineTransactionManager | spring-framework-3.2.16.RELEASE/spring-tx/src/main/java/org/springframework/transaction/interceptor/TransactionAspectSupport.java:352-366 | a configured manager, a missing bean factory or a null attribute yield the configured field without lookup; otherwise the manager is one the factory holds, and failure happens only on the lookup path as a no-such or no-unique bean error |
| TransactionAspect.QualifierTakesPrecedence | spring-framework-3.2.16.RELEASE/spring-tx/src/main/java/org/springframework/transaction/interceptor/TransactionAspectSupport.java:356-359 | with a non-empty qualifier the default bean name and the by-type candidates do not affect the result; the qualified bean is returned when it exists |
| TransactionAspect.BeanNameBeforeType | spring-framework-3.2.16.RELEASE/spring-tx/src/main/java/org/springframework/transaction/interceptor/TransactionAspectSupport.java:360-364 | without a qualifier, a default bean name makes the by-type candidates irrelevant |
| TransactionAspect.MethodIdentification | spring-framework-3.2.16.RELEASE/spring-tx/src/main/java/org/springframework/transaction/interceptor/TransactionAspectSupport.java:377-383 | the hook's answer when it gives one, otherwise exactly the target class (or the declaring class) followed by '.' and the method name |
| TransactionAspect.NamedAttribute | spring-framework-3.2.16.RELEASE/spring-tx/src/main/java/org/springframework/transaction/interceptor/TransactionAspectSupport.java:436-444 | a nameless attribute gets the join point identification as name; a named one is unchanged; qualifier and rollbackOn are kept; null stays null |
| TransactionAspect.Begin | spring-framework-3.2.16.RELEASE/spring-tx/src/main/java/org/springframework/transaction/interceptor/TransactionAspectSupport.java:447-461 | getTransaction is called only with both an attribute and a manager; the status or failure is exactly the manager's answer, and null otherwise |
| TransactionAspect.BeginEvents | spring-framework-3.2.16.RELEASE/spring-tx/src/main/java/org/springframework/transaction/interceptor/TransactionAspectSupport.java:447-454 | at most one getTransaction call, and none without an attribute or a manager |
| TransactionAspect.ReturnCompletion | spring-framework-3.2.16.RELEASE/spring-tx/src/main/java/org/springframework/transaction/interceptor/TransactionAspectSupport.java:510-518 | exactly one commit of the frame's status when it has one, none otherwise; the commit failure is what escapes |
| TransactionAspect.OverriddenBy | spring-framework-3.2.16.RELEASE/spring-tx/src/main/java/org/springframework/transaction/interceptor/TransactionAspectSupport.java:541-581 | a failing rollback or commit replaces the original throwable; a TransactionSystemException carries the original as its application exception |
| TransactionAspect.ThrowCompletion | spring-framework-3.2.16.RELEASE/spring-tx/src/main/java/org/springframework/transaction/interceptor/TransactionAspectSupport.java:526-584 | without a transaction nothing is called; with one, rollback when rollbackOn holds and commit otherwise, and completion fails exactly when that call fails |
| TransactionAspect.DoInTransactionOutcome | spring-framework-3.2.16.RELEASE/spring-tx/src/main/java/org/springframework/transaction/interceptor/TransactionAspectSupport.java:309-345 | the callback throws exactly for rollback-worthy throwables (a RuntimeException as it is, others wrapped in a ThrowableHolderException) and returns a ThrowableHolder otherwise; after unwrapping the caller sees exactly the target's outcome |
| TransactionAspect.ExecuteCompletion | spring-framework-3.2.16.RELEASE/spring-tx/src/main/java/org/springframework/transaction/interceptor/TransactionAspectSupport.java:305-333 | a callback-preferring manager rolls back when the callback threw and commits otherwise; its result is the callback's unless that call fails |
| TransactionAspect.TransactionInfo.constructor | spring-framework-3.2.16.RELEASE/spring-tx/src/main/java/org/springframework/transaction/interceptor/TransactionAspectSupport.java:614-619 | a new frame holds the manager, attribute and join point, with no status and no predecessor |
| TransactionAspect.TransactionInfo.NewTransactionStatus | spring-framework-3.2.16.RELEASE/spring-tx/src/main/java/org/springframework/transaction/interceptor/TransactionAspectSupport.java:637-639 | sets the frame's status |
| TransactionAspect.TransactionInfo.BindToThread | spring-framework-3.2.16.RELEASE/spring-tx/src/main/java/org/springframework/transaction/interceptor/TransactionAspectSupport.java:653-658 | records the previously bound frame as predecessor and binds this frame |
| TransactionAspect.TransactionInfo.RestoreThreadLocalStatus | spring-framework-3.2.16.RELEASE/spring-tx/src/main/java/org/springframework/transaction/interceptor/TransactionAspectSupport.java:660-664 | binds exactly the recorded predecessor again |
| TransactionAspect.ThreadContext.CurrentTransactionStatus | spring-framework-3.2.16.RELEASE/spring-tx/src/main/java/org/springframework/transaction/interceptor/TransactionAspectSupport.java:107-113 | throws NoTransactionException exactly when no frame is bound, otherwise answers the bound frame's status (null for a placeholder) |
| TransactionAspect.NestedBindRestore | spring-framework-3.2.16.RELEASE/spring-tx/src/main/java/org/springframework/transaction/interceptor/TransactionAspectSupport.java:653-664 | two binds followed by two restores in reverse order leave the holder as it was, with the predecessors linked |
| TransactionAspect.PrepareTransactionInfo | spring-framework-3.2.16.RELEASE/spring-tx/src/main/java/org/springframework/transaction/interceptor/TransactionAspectSupport.java:475-503 | a fresh frame is bound on top of the previous one; it gets the status only when there is an attribute, so a placeholder has no transaction |
| TransactionAspect.CreateTransactionIfNecessary | spring-framework-3.2.16.RELEASE/spring-tx/src/main/java/org/springframework/transaction/interceptor/TransactionAspectSupport.java:431-465 | the nameless attribute is named after the join point, getTransaction is issued as Begin says, and on success a fresh frame with that status is bound; a failing begin binds nothing |
| TransactionAspect.CommitTransactionAfterReturning | spring-framework-3.2.16.RELEASE/spring-tx/src/main/java/org/springframework/transaction/interceptor/TransactionAspectSupport.java:510-518 | issues the calls and reports the failure ReturnCompletion gives |
| TransactionAspect.CompleteTransactionAfterThrowing | spring-framework-3.2.16.RELEASE/spring-tx/src/main/java/org/springframework/transaction/interceptor/TransactionAspectSupport.java:526-584 | issues the calls and reports the failure ThrowCompletion gives |
| TransactionAspect.CleanupTransactionInfo | spring-framework-3.2.16.RELEASE/spring-tx/src/main/java/org/springframework/transaction/interceptor/TransactionAspectSupport.java:591-595 | the frame's predecessor is bound again |
| TransactionAspect.InvokeWithinTransaction | spring-framework-3.2.16.RELEASE/spring-tx/src/main/java/org/springframework/transaction/interceptor/TransactionAspectSupport.java:255-347 | on every exit path the holder ends as it began, and the calls issued and the outcome are those of the specification function Run |
| TransactionAspect.InvokeStandard | spring-framework-3.2.16.RELEASE/spring-tx/src/main/java/org/springframework/transaction/interceptor/TransactionAspectSupport.java:269-297 | the standard branch: holder restored, calls and outcome as StandardRun gives for the named attribute |
| TransactionAspect.ProceedAndComplete | spring-framework-3.2.16.RELEASE/spring-tx/src/main/java/org/springframework/transaction/interceptor/TransactionAspectSupport.java:274-296 | once the frame is bound: proceed, then complete and restore as StandardTail gives; the predecessor is bound at the end |
| TransactionAspect.CompleteAndCleanup | spring-framework-3.2.16.RELEASE/spring-tx/src/main/java/org/springframework/transaction/interceptor/TransactionAspectSupport.java:281-293 | a throwing target is completed while its frame is bound and then restored; a returning one is restored first and then committed |
| TransactionAspect.InvokeWithCallback | spring-framework-3.2.16.RELEASE/spring-tx/src/main/java/org/springframework/transaction/interceptor/TransactionAspectSupport.java:299-346 | the callback branch: holder restored, calls and outcome as CallbackRun gives with the original attribute |
| TransactionAspect.DoInTransaction | spring-framework-3.2.16.RELEASE/spring-tx/src/main/java/org/springframework/transaction/interceptor/TransactionAspectSupport.java:309-332 | binds a frame, proceeds, classifies the outcome as DoInTransactionOutcome does, and restores the holder |
| TransactionAspect.ProceedWithInvocation | spring-framework-3.2.16.RELEASE/spring-tx/src/main/java/org/springframework/transaction/interceptor/TransactionAspectSupport.java:279 | the target runs with its frame bound; nested intercepted calls leave that frame bound again |
| TransactionAspect.QueryThenProceed | spring-framework-3.2.16.RELEASE/spring-tx/src/main/java/org/springframework/transaction/interceptor/TransactionAspectSupport.java:107-113 | a status query inside the target answers from the bound frame |
| TransactionAspect.InvokeThenProceed | spring-framework-3.2.16.RELEASE/spring-tx/src/main/java/org/springframework/transaction/interceptor/TransactionAspectSupport.java:255-347 | a nested intercepted call inside the target runs the whole invocation with the current frame as outer frame |
| TransactionProperties.ProceedsOncePerInvocation | spring-framework-3.2.16.RELEASE/spring-tx/src/main/java/org/springframework/transaction/interceptor/TransactionAspectSupport.java:255-347 | the target of every invocation in a call tree runs at most once, and exactly once when manager resolution and begin succeed throughout |
| TransactionProperties.StandardRunProceeds | spring-framework-3.2.16.RELEASE/spring-tx/src/main/java/org/springframework/transaction/interceptor/TransactionAspectSupport.java:273-296 | the standard path runs its target once after a successful begin, and not at all after a failing one |
| TransactionProperties.StandardTailProceeds | spring-framework-3.2.16.RELEASE/spring-tx/src/main/java/org/springframework/transaction/interceptor/TransactionAspectSupport.java:275-293 | once the frame is bound, the standard path runs its target exactly once |
| TransactionProperties.CallbackRunProceeds | spring-framework-3.2.16.RELEASE/spring-tx/src/main/java/org/springframework/transaction/interceptor/TransactionAspectSupport.java:304-345 | the callback path runs its target once after the manager's begin succeeds |
| TransactionProperties.BodyProceedsOncePerInvocation | spring-framework-3.2.16.RELEASE/spring-tx/src/main/java/org/springframework/transaction/interceptor/TransactionAspectSupport.java:279 | inside a target, each nested intercepted call runs its own target at most once, exactly once when setups succeed |
| TransactionProperties.UntransactedIsTransparent | spring-framework-3.2.16.RELEASE/spring-tx/src/main/java/org/springframework/transaction/interceptor/TransactionAspectSupport.java:447-461 | when no invocation needs a transaction, no getTransaction, execute, commit or rollback is issued, each target runs once, and its outcome reaches the caller unchanged |
| TransactionProperties.UntransactedRun | spring-framework-3.2.16.RELEASE/spring-tx/src/main/java/org/springframework/transaction/interceptor/TransactionAspectSupport.java:269-296 | an invocation without attribute or manager only proceeds, with a placeholder frame whose status is null |
| TransactionProperties.StandardRunWithoutTransaction | spring-framework-3.2.16.RELEASE/spring-tx/src/main/java/org/springframework/transaction/interceptor/TransactionAspectSupport.java:447-461 | without a manager or an attribute the standard path issues no manager call and proceeds with no status |
| TransactionProperties.BodyUntransactedIsTransparent | spring-framework-3.2.16.RELEASE/spring-tx/src/main/java/org/springframework/transaction/interceptor/TransactionAspectSupport.java:488-501 | inside an untransacted target, nested untransacted calls issue no manager call |
| TransactionProperties.StandardCommitAfterReturn | spring-framework-3.2.16.RELEASE/spring-tx/src/main/java/org/springframework/transaction/interceptor/TransactionAspectSupport.java:273-296 | on a normal return: getTransaction, the target, then one commit of the same status issued after the frame is restored; the value is returned unless the commit fails |
| TransactionProperties.StandardCompletionAfterThrow | spring-framework-3.2.16.RELEASE/spring-tx/src/main/java/org/springframework/transaction/interceptor/TransactionAspectSupport.java:281-290 | on a throw: rollback when rollbackOn holds and commit otherwise, issued while the frame is bound; the caller sees the original throwable, or the completion failure carrying it |
| TransactionProperties.StrategiesAgree | spring-framework-3.2.16.RELEASE/spring-tx/src/main/java/org/springframework/transaction/interceptor/TransactionAspectSupport.java:269-345 | when the manager does not fail, both strategies return the target's own outcome and roll back exactly for rollback-worthy throwables |
| TransactionProperties.CallbackPathKeepsAttribute | spring-framework-3.2.16.RELEASE/spring-tx/src/main/java/org/springframework/transaction/interceptor/TransactionAspectSupport.java:305-310 | on the callback path execute gets the original attribute and a status query sees the manager's status |
| TransactionProperties.PlaceholderHidesOuterStatus | spring-framework-3.2.16.RELEASE/spring-tx/src/main/java/org/springframework/transaction/interceptor/TransactionAspectSupport.java:488-501 | for any callee body, a non-transactional callee binds a placeholder, so its body runs with a null status, and whatever the caller does afterwards runs with the caller's status again |
| TransactionProperties.PlaceholderExample | spring-framework-3.2.16.RELEASE/spring-tx/src/main/java/org/springframework/transaction/interceptor/TransactionAspectSupport.java:488-501 | a status query before and after such a call answers null inside the callee and the caller's status after it |
| HandlerMapping.AdaptInterceptor | spring-framework-3.2.16.RELEASE/spring-webmvc/src/main/java/org/springframework/web/servlet/handler/AbstractHandlerMapping.java:277-292 | a HandlerInterceptor is kept, a WebRequestInterceptor wrapped in an adapter, anything else refused with its class name |
| HandlerMapping.InitializedPartitions | spring-framework-3.2.16.RELEASE/spring-webmvc/src/main/java/org/springframework/web/servlet/handler/AbstractHandlerMapping.java:245-263 | initialization succeeds exactly when every entry is non-null and supported, and then every entry goes to exactly one list, in order |
| HandlerMapping.InitializedStopsAtFirstError | spring-framework-3.2.16.RELEASE/spring-webmvc/src/main/java/org/springframework/web/servlet/handler/AbstractHandlerMapping.java:250-261 | at the first null or unsupported entry the exception names it, and the lists hold exactly what came before it |
| HandlerMapping.ErrorIsFinal | spring-framework-3.2.16.RELEASE/spring-webmvc/src/main/java/org/springframework/web/servlet/handler/AbstractHandlerMapping.java:250-261 | entries after the exception change nothing |
| HandlerMapping.MatchingOfMembers | spring-framework-3.2.16.RELEASE/spring-webmvc/src/main/java/org/springframework/web/servlet/handler/AbstractHandlerMapping.java:387-393 | a mapped interceptor's HandlerInterceptor is added exactly when some mapped interceptor carrying it matches the path |
| HandlerMapping.AllMatching | spring-framework-3.2.16.RELEASE/spring-webmvc/src/main/java/org/springframework/web/servlet/handler/AbstractHandlerMapping.java:387-393 | when every mapped interceptor matches, all are added in list order |
| HandlerMapping.HandlerExecutionChain.constructor | spring-framework-3.2.16.RELEASE/spring-webmvc/src/main/java/org/springframework/web/servlet/handler/AbstractHandlerMapping.java:378-379 | a new chain holds its handler and no interceptors |
| HandlerMapping.HandlerExecutionChain.AddInterceptors | spring-framework-3.2.16.RELEASE/spring-webmvc/src/main/java/org/springframework/web/servlet/handler/AbstractHandlerMapping.java:382 | appends the given interceptors; null adds nothing |
| HandlerMapping.HandlerExecutionChain.AddInterceptor | spring-framework-3.2.16.RELEASE/spring-webmvc/src/main/java/org/springframework/web/servlet/handler/AbstractHandlerMapping.java:390-392 | appends one interceptor |
| HandlerMapping.ResolveHandler | spring-framework-3.2.16.RELEASE/spring-webmvc/src/main/java/org/springframework/web/servlet/handler/AbstractHandlerMapping.java:319-334 | the looked-up handler, else the default one, else null; a bean name is replaced by the bean it names and fails when there is none |
| HandlerMapping.AbstractHandlerMapping.SetDefaultHandler | spring-framework-3.2.16.RELEASE/spring-webmvc/src/main/java/org/springframework/web/servlet/handler/AbstractHandlerMapping.java:100-102 | sets the default handler |
| HandlerMapping.AbstractHandlerMapping.SetInterceptors | spring-framework-3.2.16.RELEASE/spring-webmvc/src/main/java/org/springframework/web/servlet/handler/AbstractHandlerMapping.java:189-191 | appends to the configured interceptors instead of replacing them |
| HandlerMapping.AbstractHandlerMapping.InitApplicationContext | spring-framework-3.2.16.RELEASE/spring-webmvc/src/main/java/org/springframework/web/servlet/handler/AbstractHandlerMapping.java:200-209 | detected mapped interceptors are added before the configured ones are partitioned |
| HandlerMapping.AbstractHandlerMapping.InitInterceptors | spring-framework-3.2.16.RELEASE/spring-webmvc/src/main/java/org/springframework/web/servlet/handler/AbstractHandlerMapping.java:245-263 | the lists grow by exactly the partition Initialized gives, and the exception is the one it names |
| HandlerMapping.AbstractHandlerMapping.AdaptedInterceptors | spring-framework-3.2.16.RELEASE/spring-webmvc/src/main/java/org/springframework/web/servlet/handler/AbstractHandlerMapping.java:298-301 | null when there are none, otherwise all of them in order |
| HandlerMapping.AbstractHandlerMapping.MappedInterceptors | spring-framework-3.2.16.RELEASE/spring-webmvc/src/main/java/org/springframework/web/servlet/handler/AbstractHandlerMapping.java:307-310 | null when there are none, otherwise all of them in order |
| HandlerMapping.AbstractHandlerMapping.GetHandlerExecutionChain | spring-framework-3.2.16.RELEASE/spring-webmvc/src/main/java/org/springframework/web/servlet/handler/AbstractHandlerMapping.java:374-396 | an existing chain is reused, else a fresh one made; it gains all adapted interceptors, then the matching mapped ones in order |
| HandlerMapping.AbstractHandlerMapping.GetHandler | spring-framework-3.2.16.RELEASE/spring-webmvc/src/main/java/org/springframework/web/servlet/handler/AbstractHandlerMapping.java:319-337 | null exactly when no handler resolves, the lookup failure when the bean name is unknown, otherwise the chain for the resolved handler |
| ContentNegotiation.Acceptable | spring-framework-3.2.16.RELEASE/spring-webmvc/src/main/java/org/springframework/web/servlet/view/ContentNegotiatingViewResolver.java:318-319 | never empty; an empty list becomes any type, a non-empty one is kept |
| ContentNegotiation.Producible | spring-framework-3.2.16.RELEASE/spring-webmvc/src/main/java/org/springframework/web/servlet/view/ContentNegotiatingViewResolver.java:346-355 | never empty; an absent or empty attribute becomes any type, otherwise it is kept |
| ContentNegotiation.DedupElements | spring-framework-3.2.16.RELEASE/spring-webmvc/src/main/java/org/springframework/web/servlet/view/ContentNegotiatingViewResolver.java:322 | the LinkedHashSet keeps exactly the offered types, each once |
| ContentNegotiation.DedupKeepsFirstOccurrenceOrder | spring-framework-3.2.16.RELEASE/spring-webmvc/src/main/java/org/springframework/web/servlet/view/ContentNegotiatingViewResolver.java:322-332 | the LinkedHashSet keeps insertion order: of two kept types, the earlier one is offered before any offer of the later one |
| ContentNegotiation.RowElements | spring-framework-3.2.16.RELEASE/spring-webmvc/src/main/java/org/springframework/web/servlet/view/ContentNegotiatingViewResolver.java:324-330 | one acceptable type contributes exactly the most specific types of its compatible producible types |
| ContentNegotiation.CombinationsElements | spring-framework-3.2.16.RELEASE/spring-webmvc/src/main/java/org/springframework/web/servlet/view/ContentNegotiatingViewResolver.java:323-331 | the nested loop offers exactly the most specific types of compatible acceptable/producible pairs |
| ContentNegotiation.CompatibleTypesAreDistinctPairs | spring-framework-3.2.16.RELEASE/spring-webmvc/src/main/java/org/springframework/web/servlet/view/ContentNegotiatingViewResolver.java:322-332 | before sorting, the requested types are exactly those of the compatible pairs, without duplicates, in the order the nested loop first offers them |
| ContentNegotiation.ExtensionViewsResolveNames | spring-framework-3.2.16.RELEASE/spring-webmvc/src/main/java/org/springframework/web/servlet/view/ContentNegotiatingViewResolver.java:383-391 | the innermost loop resolves exactly "name.ext" for each extension, in order |
| ContentNegotiation.TypeViewsResolveNames | spring-framework-3.2.16.RELEASE/spring-webmvc/src/main/java/org/springframework/web/servlet/view/ContentNegotiatingViewResolver.java:378-392 | the loop over requested types resolves their extension names, type by type |
| ContentNegotiation.ResolverAskedForTriedNames | spring-framework-3.2.16.RELEASE/spring-webmvc/src/main/java/org/springframework/web/servlet/view/ContentNegotiatingViewResolver.java:371-393 | each resolver contributes its non-null answers for the plain name, then for every name with extension, in order |
| ContentNegotiation.FirstRedirect | spring-framework-3.2.16.RELEASE/spring-webmvc/src/main/java/org/springframework/web/servlet/view/ContentNegotiatingViewResolver.java:406-420 | a found index is a redirect view |
| ContentNegotiation.FirstRedirectIsFirst | spring-framework-3.2.16.RELEASE/spring-webmvc/src/main/java/org/springframework/web/servlet/view/ContentNegotiatingViewResolver.java:406-420 | no redirect precedes the one found, and none exists when none is found |
| ContentNegotiation.FirstMatch | spring-framework-3.2.16.RELEASE/spring-webmvc/src/main/java/org/springframework/web/servlet/view/ContentNegotiatingViewResolver.java:423-446 | a found pair has a candidate with text content type compatible with the requested type, at or after the start |
| ContentNegotiation.FirstMatchIsFirst | spring-framework-3.2.16.RELEASE/spring-webmvc/src/main/java/org/springframework/web/servlet/view/ContentNegotiatingViewResolver.java:423-446 | no accepting pair precedes the found one in requested-type-major order |
| ContentNegotiation.BestViewIsFirstInOrder | spring-framework-3.2.16.RELEASE/spring-webmvc/src/main/java/org/springframework/web/servlet/view/ContentNegotiatingViewResolver.java:403-448 | the first redirect wins, with no selected type; else the first accepting candidate in requested-type-major order, recording its requested type; none exactly when nothing accepts |
| ContentNegotiation.Fallback | spring-framework-3.2.16.RELEASE/spring-webmvc/src/main/java/org/springframework/web/servlet/view/ContentNegotiatingViewResolver.java:291-305 | a best view is returned; without one, the 406 view exactly when useNotAcceptableStatusCode is set, else null; that view has no content type and renders status 406 |
| ContentNegotiation.WithoutDropsOnlySelf | spring-framework-3.2.16.RELEASE/spring-webmvc/src/main/java/org/springframework/web/servlet/view/ContentNegotiatingViewResolver.java:238-245 | the detected resolvers are exactly the other beans, in their order, and nothing else |
| ContentNegotiation.CandidatesOf | spring-framework-3.2.16.RELEASE/spring-webmvc/src/main/java/org/springframework/web/servlet/view/ContentNegotiatingViewResolver.java:371-393 | one resolver's pass yields its candidates for the plain name, then the names with extensions |
| ContentNegotiation.TypeCandidatesOf | spring-framework-3.2.16.RELEASE/spring-webmvc/src/main/java/org/springframework/web/servlet/view/ContentNegotiatingViewResolver.java:378-392 | the loop over requested types yields the views of their extension names |
| ContentNegotiation.ExtensionCandidatesOf | spring-framework-3.2.16.RELEASE/spring-webmvc/src/main/java/org/springframework/web/servlet/view/ContentNegotiatingViewResolver.java:383-391 | the loop over extensions yields the non-null views of "name.ext" |
| ContentNegotiation.ContentNegotiatingViewResolver.SetUseNotAcceptableStatusCode | spring-framework-3.2.16.RELEASE/spring-webmvc/src/main/java/org/springframework/web/servlet/view/ContentNegotiatingViewResolver.java:212-214 | sets the 406 fallback switch |
| ContentNegotiation.ContentNegotiatingViewResolver.SetDefaultViews | spring-framework-3.2.16.RELEASE/spring-webmvc/src/main/java/org/springframework/web/servlet/view/ContentNegotiatingViewResolver.java:220-222 | sets the default views |
| ContentNegotiation.ContentNegotiatingViewResolver.SetViewResolvers | spring-framework-3.2.16.RELEASE/spring-webmvc/src/main/java/org/springframework/web/servlet/view/ContentNegotiatingViewResolver.java:228-230 | sets the delegate resolvers |
| ContentNegotiation.ContentNegotiatingViewResolver.InitServletContext | spring-framework-3.2.16.RELEASE/spring-webmvc/src/main/java/org/springframework/web/servlet/view/ContentNegotiatingViewResolver.java:234-264 | without configured resolvers, all detected ones but this resolver; the list is then sorted |
| ContentNegotiation.ContentNegotiatingViewResolver.GetMediaTypes | spring-framework-3.2.16.RELEASE/spring-webmvc/src/main/java/org/springframework/web/servlet/view/ContentNegotiatingViewResolver.java:313-343 | null when nothing is acceptable, else the sorted, deduplicated compatible types |
| ContentNegotiation.ContentNegotiatingViewResolver.AddCompatible | spring-framework-3.2.16.RELEASE/spring-webmvc/src/main/java/org/springframework/web/servlet/view/ContentNegotiatingViewResolver.java:324-330 | the inner loop adds one acceptable type's compatible types to the set |
| ContentNegotiation.ContentNegotiatingViewResolver.GetCandidateViews | spring-framework-3.2.16.RELEASE/spring-webmvc/src/main/java/org/springframework/web/servlet/view/ContentNegotiatingViewResolver.java:367-401 | the resolvers' candidates in order, then the default views |
| ContentNegotiation.ContentNegotiatingViewResolver.GetBestView | spring-framework-3.2.16.RELEASE/spring-webmvc/src/main/java/org/springframework/web/servlet/view/ContentNegotiatingViewResolver.java:403-448 | returns BestView's view and records exactly its selected type |
| ContentNegotiation.ContentNegotiatingViewResolver.ResolveViewName | spring-framework-3.2.16.RELEASE/spring-webmvc/src/main/java/org/springframework/web/servlet/view/ContentNegotiatingViewResolver.java:273-306 | the best view for the requested types, else the fallback; with no media types no view search happens |
| NamedValue.UpdateNamedValueInfo | spring-framework-3.2.16.RELEASE/spring-web/src/main/java/org/springframework/web/method/annotation/AbstractNamedValueMethodArgumentResolver.java:158-167 | fails exactly when the name is empty and no parameter name is known; otherwise an empty name becomes the parameter name, DEFAULT_NONE becomes null, and required is kept |
| NamedValue.UpdateIsIdempotent | spring-framework-3.2.16.RELEASE/spring-web/src/main/java/org/springframework/web/method/annotation/AbstractNamedValueMethodArgumentResolver.java:158-167 | sanitizing twice is sanitizing once |
| NamedValue.ResolveDefaultValue | spring-framework-3.2.16.RELEASE/spring-web/src/main/java/org/springframework/web/method/annotation/AbstractNamedValueMethodArgumentResolver.java:183-197 | the literal default without a bean factory or without an expression resolver, otherwise the evaluation of the placeholder-resolved default |
| NamedValue.PlaceholdersNeedExpressionResolver | spring-framework-3.2.16.RELEASE/spring-web/src/main/java/org/springframework/web/method/annotation/AbstractNamedValueMethodArgumentResolver.java:189-195 | without an expression resolver the placeholder-resolved string is discarded |
| NamedValue.HandleNullValue | spring-framework-3.2.16.RELEASE/spring-web/src/main/java/org/springframework/web/method/annotation/AbstractNamedValueMethodArgumentResolver.java:212-227 | null becomes false for boolean, fails for another primitive, stays null for a reference type; non-null is kept |
| NamedValue.ResolveValue | spring-framework-3.2.16.RELEASE/spring-web/src/main/java/org/springframework/web/method/annotation/AbstractNamedValueMethodArgumentResolver.java:93-107 | handleMissingValue is called exactly for a missing required value without default; a missing value takes the default; an empty string takes the default only when there is one; anything else is kept |
| NamedValue.NullPrimitiveOnlyFromEmptyString | spring-framework-3.2.16.RELEASE/spring-web/src/main/java/org/springframework/web/method/annotation/AbstractNamedValueMethodArgumentResolver.java:93-107 | a primitive parameter ends null only from an empty string whose default evaluates to null |
| NamedValue.AbstractNamedValueMethodArgumentResolver.constructor | spring-framework-3.2.16.RELEASE/spring-web/src/main/java/org/springframework/web/method/annotation/AbstractNamedValueMethodArgumentResolver.java:73-76 | an empty cache |
| NamedValue.AbstractNamedValueMethodArgumentResolver.GetNamedValueInfo | spring-framework-3.2.16.RELEASE/spring-web/src/main/java/org/springframework/web/method/annotation/AbstractNamedValueMethodArgumentResolver.java:126-145 | the result is the sanitized created info; a hit changes nothing, a miss creates once and caches a successful result |
| NamedValue.AbstractNamedValueMethodArgumentResolver.ResolveArgument | spring-framework-3.2.16.RELEASE/spring-web/src/main/java/org/springframework/web/method/annotation/AbstractNamedValueMethodArgumentResolver.java:79-121 | the info, the decision of ResolveValue on the resolved name, then the binder's conversion when there is a binder factory |
| NamedValue.CachedOnSecondLookup | spring-framework-3.2.16.RELEASE/spring-web/src/main/java/org/springframework/web/method/annotation/AbstractNamedValueMethodArgumentResolver.java:126-145 | a second lookup of the same parameter gives the same info and creates nothing more |
| DataSourceProxy.ShouldObtainFixedConnection | spring-framework-3.2.16.RELEASE/spring-jdbc/src/main/java/org/springframework/jdbc/datasource/TransactionAwareDataSourceProxy.java:174-177 | fixed mode unless synchronization is active and reobtaining is requested |
| DataSourceProxy.IdentityWithoutTarget | spring-framework-3.2.16.RELEASE/spring-jdbc/src/main/java/org/springframework/jdbc/datasource/TransactionAwareDataSourceProxy.java:199-206 | equals is proxy identity and hashCode the identity hash; no state change, no connection call |
| DataSourceProxy.CloseThenIsClosed | spring-framework-3.2.16.RELEASE/spring-jdbc/src/main/java/org/springframework/jdbc/datasource/TransactionAwareDataSourceProxy.java:228-236 | close releases the target, sets closed and returns null; isClosed then answers true |
| DataSourceProxy.ClosedFailsOnlyWithoutTarget | spring-framework-3.2.16.RELEASE/spring-jdbc/src/main/java/org/springframework/jdbc/datasource/TransactionAwareDataSourceProxy.java:238-241 | after close a delegated call fails with handle-closed exactly when there is no fixed target; otherwise the target answers |
| DataSourceProxy.FixedTargetReused | spring-framework-3.2.16.RELEASE/spring-jdbc/src/main/java/org/springframework/jdbc/datasource/TransactionAwareDataSourceProxy.java:238-278 | an existing target is reused: nothing obtained or released |
| DataSourceProxy.NonFixedObtainsAndReleases | spring-framework-3.2.16.RELEASE/spring-jdbc/src/main/java/org/springframework/jdbc/datasource/TransactionAwareDataSourceProxy.java:248-251 | without a fixed target each call obtains a fresh connection, calls it, and releases it last, whatever the outcome |
| DataSourceProxy.TargetConnectionNotInvoked | spring-framework-3.2.16.RELEASE/spring-jdbc/src/main/java/org/springframework/jdbc/datasource/TransactionAwareDataSourceProxy.java:253-257 | getTargetConnection returns the actual connection and calls nothing on it |
| DataSourceProxy.FixedStep | spring-framework-3.2.16.RELEASE/spring-jdbc/src/main/java/org/springframework/jdbc/datasource/TransactionAwareDataSourceProxy.java:238-247 | one call in fixed mode obtains at most one connection, only while there is no target, and keeps an existing target |
| DataSourceProxy.FixedDelegate | spring-framework-3.2.16.RELEASE/spring-jdbc/src/main/java/org/springframework/jdbc/datasource/TransactionAwareDataSourceProxy.java:238-251 | a delegated call in fixed mode obtains the target only if there is none yet |
| DataSourceProxy.FixedObtainedAtMostOnce | spring-framework-3.2.16.RELEASE/spring-jdbc/src/main/java/org/springframework/jdbc/datasource/TransactionAwareDataSourceProxy.java:238-247 | in fixed mode a proxy obtains its target at most once over any sequence of calls, and keeps it |
| DataSourceProxy.DataSource.DoGetConnection | spring-framework-3.2.16.RELEASE/spring-jdbc/src/main/java/org/springframework/jdbc/datasource/TransactionAwareDataSourceProxy.java:244 | hands out a fresh connection and logs it |
| DataSourceProxy.DataSource.DoReleaseConnection | spring-framework-3.2.16.RELEASE/spring-jdbc/src/main/java/org/springframework/jdbc/datasource/TransactionAwareDataSourceProxy.java:230 | logs the release |
| DataSourceProxy.TransactionAwareDataSourceProxy.constructor | spring-framework-3.2.16.RELEASE/spring-jdbc/src/main/java/org/springframework/jdbc/datasource/TransactionAwareDataSourceProxy.java:111-113 | holds the target data source; reobtaining is off |
| DataSourceProxy.TransactionAwareDataSourceProxy.SetReobtainTransactionalConnections | spring-framework-3.2.16.RELEASE/spring-jdbc/src/main/java/org/springframework/jdbc/datasource/TransactionAwareDataSourceProxy.java:124-126 | sets the reobtain flag |
| DataSourceProxy.TransactionAwareDataSourceProxy.GetConnection | spring-framework-3.2.16.RELEASE/spring-jdbc/src/main/java/org/springframework/jdbc/datasource/TransactionAwareDataSourceProxy.java:141-162 | fails exactly without a target data source; otherwise a fresh handler with no target, not closed |
| DataSourceProxy.TransactionAwareInvocationHandler.constructor | spring-framework-3.2.16.RELEASE/spring-jdbc/src/main/java/org/springframework/jdbc/datasource/TransactionAwareDataSourceProxy.java:192-194 | no target and not closed |
| DataSourceProxy.TransactionAwareInvocationHandler.Invoke | spring-framework-3.2.16.RELEASE/spring-jdbc/src/main/java/org/springframework/jdbc/datasource/TransactionAwareDataSourceProxy.java:196-279 | result, fields and connection log move exactly as the function Handle says |
| DataSourceProxy.TransactionAwareInvocationHandler.DelegateCall | spring-framework-3.2.16.RELEASE/spring-jdbc/src/main/java/org/springframework/jdbc/datasource/TransactionAwareDataSourceProxy.java:238-278 | the delegating part moves exactly as Delegate says |
| DataSourceProxy.TransactionAwareInvocationHandler.ActualTarget | spring-framework-3.2.16.RELEASE/spring-jdbc/src/main/java/org/springframework/jdbc/datasource/TransactionAwareDataSourceProxy.java:238-251 | the fixed target is obtained first if need be; otherwise a fresh connection is obtained for this call |
| ExceptionHandler.Put | spring-framework-3.2.16.RELEASE/spring-webmvc/src/main/java/org/springframework/web/servlet/mvc/method/annotation/ExceptionHandlerExceptionResolver.java:288 | a new key goes to the end, an existing key keeps its place; keys stay distinct |
| ExceptionHandler.MappedAdviceKeys | spring-framework-3.2.16.RELEASE/spring-webmvc/src/main/java/org/springframework/web/servlet/mvc/method/annotation/ExceptionHandlerExceptionResolver.java:285-291 | only listed beans are cached |
| ExceptionHandler.AdviceCacheFromEmpty | spring-framework-3.2.16.RELEASE/spring-webmvc/src/main/java/org/springframework/web/servlet/mvc/method/annotation/ExceptionHandlerExceptionResolver.java:274-292 | from an empty cache, the cache holds exactly the beans with exception mappings, in sorted order |
| ExceptionHandler.AdviceFromWellFormed | spring-framework-3.2.16.RELEASE/spring-webmvc/src/main/java/org/springframework/web/servlet/mvc/method/annotation/ExceptionHandlerExceptionResolver.java:285-291 | the cache only ever holds beans with mappings, each with its own type's resolver |
| ExceptionHandler.FirstAdviceMatchIsFirst | spring-framework-3.2.16.RELEASE/spring-webmvc/src/main/java/org/springframework/web/servlet/mvc/method/annotation/ExceptionHandlerExceptionResolver.java:375-382 | advice is tried in order; the first match wins, and null only when none matches |
| ExceptionHandler.ControllerBeforeAdvice | spring-framework-3.2.16.RELEASE/spring-webmvc/src/main/java/org/springframework/web/servlet/mvc/method/annotation/ExceptionHandlerExceptionResolver.java:361-382 | the method resolved in the controller's own class wins, with its bean; without a handler method, or without a match in its class, the first matching advice decides |
| ExceptionHandler.ShapeModelAndView | spring-framework-3.2.16.RELEASE/spring-webmvc/src/main/java/org/springframework/web/servlet/mvc/method/annotation/ExceptionHandlerExceptionResolver.java:332-344 | a handled request gives an empty ModelAndView; otherwise the container's model, its view name when it holds a reference, or its View object when it holds one, and nothing else |
| ExceptionHandler.UnresolvedCases | spring-framework-3.2.16.RELEASE/spring-webmvc/src/main/java/org/springframework/web/servlet/mvc/method/annotation/ExceptionHandlerExceptionResolver.java:305-330 | null exactly when no handler method is found or invoking it throws |
| ExceptionHandler.ExceptionHandlerExceptionResolver.constructor | spring-framework-3.2.16.RELEASE/spring-webmvc/src/main/java/org/springframework/web/servlet/mvc/method/annotation/ExceptionHandlerExceptionResolver.java:90-99 | nothing configured, empty caches |
| ExceptionHandler.ExceptionHandlerExceptionResolver.SetCustomArgumentResolvers | spring-framework-3.2.16.RELEASE/spring-webmvc/src/main/java/org/springframework/web/servlet/mvc/method/annotation/ExceptionHandlerExceptionResolver.java:107-109 | sets the custom argument resolvers |
| ExceptionHandler.ExceptionHandlerExceptionResolver.SetCustomReturnValueHandlers | spring-framework-3.2.16.RELEASE/spring-webmvc/src/main/java/org/springframework/web/servlet/mvc/method/annotation/ExceptionHandlerExceptionResolver.java:145-147 | sets the custom return-value handlers |
| ExceptionHandler.ExceptionHandlerExceptionResolver.SetApplicationContext | spring-framework-3.2.16.RELEASE/spring-webmvc/src/main/java/org/springframework/web/servlet/mvc/method/annotation/ExceptionHandlerExceptionResolver.java:201-203 | sets the application context |
| ExceptionHandler.ExceptionHandlerExceptionResolver.GetDefaultArgumentResolvers | spring-framework-3.2.16.RELEASE/spring-webmvc/src/main/java/org/springframework/web/servlet/mvc/method/annotation/ExceptionHandlerExceptionResolver.java:227-240 | the built-in resolvers, then the custom ones |
| ExceptionHandler.ExceptionHandlerExceptionResolver.GetDefaultReturnValueHandlers | spring-framework-3.2.16.RELEASE/spring-webmvc/src/main/java/org/springframework/web/servlet/mvc/method/annotation/ExceptionHandlerExceptionResolver.java:246-272 | the built-ins, then the custom handlers, then the catch-all last |
| ExceptionHandler.ExceptionHandlerExceptionResolver.InitExceptionHandlerAdviceCache | spring-framework-3.2.16.RELEASE/spring-webmvc/src/main/java/org/springframework/web/servlet/mvc/method/annotation/ExceptionHandlerExceptionResolver.java:274-292 | unchanged without a context; otherwise the sorted beans with mappings are put in order |
| ExceptionHandler.ExceptionHandlerExceptionResolver.AfterPropertiesSet | spring-framework-3.2.16.RELEASE/spring-webmvc/src/main/java/org/springframework/web/servlet/mvc/method/annotation/ExceptionHandlerExceptionResolver.java:211-221 | defaults are installed only where nothing was configured, then the advice cache is filled |
| ExceptionHandler.ExceptionHandlerExceptionResolver.CachedResolver | spring-framework-3.2.16.RELEASE/spring-webmvc/src/main/java/org/springframework/web/servlet/mvc/method/annotation/ExceptionHandlerExceptionResolver.java:363-367 | the bean type's resolver, created and recorded only on a miss |
| ExceptionHandler.ExceptionHandlerExceptionResolver.GetExceptionHandlerMethod | spring-framework-3.2.16.RELEASE/spring-webmvc/src/main/java/org/springframework/web/servlet/mvc/method/annotation/ExceptionHandlerExceptionResolver.java:360-383 | the result FindExceptionHandlerMethod gives; the controller's type is cached |
| ExceptionHandler.ExceptionHandlerExceptionResolver.DoResolveHandlerMethodException | spring-framework-3.2.16.RELEASE/spring-webmvc/src/main/java/org/springframework/web/servlet/mvc/method/annotation/ExceptionHandlerExceptionResolver.java:301-345 | the handler method found, invoked, and its outcome shaped as ResolveOutcome gives |
| ExceptionHandler.ResolverCreatedOncePerType | spring-framework-3.2.16.RELEASE/spring-webmvc/src/main/java/org/springframework/web/servlet/mvc/method/annotation/ExceptionHandlerExceptionResolver.java:363-367 | two lookups for the same controller type create at most one resolver |
| RequestBody.SupportsParameter | spring-framework-3.2.16.RELEASE/spring-webmvc/src/main/java/org/springframework/web/servlet/mvc/method/annotation/RequestResponseBodyMethodProcessor.java:77-79 | holds exactly when the parameter carries @RequestBody |
| RequestBody.SupportsReturnType | spring-framework-3.2.16.RELEASE/spring-webmvc/src/main/java/org/springframework/web/servlet/mvc/method/annotation/RequestResponseBodyMethodProcessor.java:81-83 | holds exactly when the method carries @ResponseBody |
| RequestBody.IsBindExceptionRequired | spring-framework-3.2.16.RELEASE/spring-webmvc/src/main/java/org/springframework/web/servlet/mvc/method/annotation/RequestResponseBodyMethodProcessor.java:135-140 | required exactly unless the next parameter exists and is an Errors |
| RequestBody.FirstValidAnnotation | spring-framework-3.2.16.RELEASE/spring-webmvc/src/main/java/org/springframework/web/servlet/mvc/method/annotation/RequestResponseBodyMethodProcessor.java:116-117 | the first annotation whose simple name starts with "Valid", and none before it does |
| RequestBody.Hints | spring-framework-3.2.16.RELEASE/spring-webmvc/src/main/java/org/springframework/web/servlet/mvc/method/annotation/RequestResponseBodyMethodProcessor.java:118-119 | an array value is used as it is, a single value is wrapped |
| RequestBody.ValidationRules | spring-framework-3.2.16.RELEASE/spring-webmvc/src/main/java/org/springframework/web/servlet/mvc/method/annotation/RequestResponseBodyMethodProcessor.java:114-127 | validation runs at most once and throws only with errors and a required bind exception; without a "Valid" annotation nothing changes |
| RequestBody.WebDataBinder.Validate | spring-framework-3.2.16.RELEASE/spring-webmvc/src/main/java/org/springframework/web/servlet/mvc/method/annotation/RequestResponseBodyMethodProcessor.java:119 | the validator's errors are added to the binding result |
| RequestBody.ModelAndViewContainer.AddAttribute | spring-framework-3.2.16.RELEASE/spring-webmvc/src/main/java/org/springframework/web/servlet/mvc/method/annotation/RequestResponseBodyMethodProcessor.java:100 | puts one model attribute |
| RequestBody.ModelAndViewContainer.SetRequestHandled | spring-framework-3.2.16.RELEASE/spring-webmvc/src/main/java/org/springframework/web/servlet/mvc/method/annotation/RequestResponseBodyMethodProcessor.java:195 | sets the handled flag |
| RequestBody.Validate | spring-framework-3.2.16.RELEASE/spring-webmvc/src/main/java/org/springframework/web/servlet/mvc/method/annotation/RequestResponseBodyMethodProcessor.java:114-127 | the binding result and the exception are those ValidationRules describes |
| RequestBody.ResolveArgument | spring-framework-3.2.16.RELEASE/spring-webmvc/src/main/java/org/springframework/web/servlet/mvc/method/annotation/RequestResponseBodyMethodProcessor.java:91-102 | a read failure propagates; a non-null argument is validated; unless validation throws, the binding result is recorded under the model key and the argument returned |
| RequestBody.HandleReturnValue | spring-framework-3.2.16.RELEASE/spring-webmvc/src/main/java/org/springframework/web/servlet/mvc/method/annotation/RequestResponseBodyMethodProcessor.java:191-199 | the request is marked handled in any case; only a non-null value is written |
| RequestBody.NullArgumentNotValidated | spring-framework-3.2.16.RELEASE/spring-webmvc/src/main/java/org/springframework/web/servlet/mvc/method/annotation/RequestResponseBodyMethodProcessor.java:97-100 | a null argument is not validated and its empty binding result is still recorded |

## Left out

- Transaction manager internals: propagation behaviour, what commit and rollback do to resources, and rollback-only marking. A manager is its `begin`, `commitFailure` and `rollbackFailure` functions. `execute` is modelled as begin, callback, then commit or rollback, which is what the callback contract asks of it.
- `TransactionAttribute.rollbackOn`'s rule matching is not part of this model. It is an uninterpreted predicate in the attribute.
- The attribute source (`getTransactionAttributeSource().getTransactionAttribute`) is a function of the aspect. The deprecated `createTransactionIfNecessary(Method, Class)` overload and the `TransactionInfo` accessors and `toString` carry no logic and are not modelled.
- `ThreadLocal` across threads: one thread's holder is the field `ThreadContext.current`.
- Logging, reflection, `Proxy.newProxyInstance`, and the proxy object itself. `TransactionAwareDataSourceProxy.GetConnection` returns the invocation handler that stands for the proxy, and a proxy identity is a number.
- DataSourceUtils: obtaining and releasing connections is a counter and a log. A failure to obtain a connection is not modelled. `applyTransactionTimeout` only records the statement it applies to.
- TransactionAspect.InvokeThenProceed: a nested intercepted call's outcome is dropped, because the model's target always catches what a nested call throws. A target that lets a nested exception escape is expressed by its own `Throw`.
- TransactionAspect.CommitTransactionAfterReturning, TransactionAspect.CompleteTransactionAfterThrowing: these also test that a manager, and for the throw case an attribute, is present. The source only tests for a status. A status is only ever set together with both, so no reachable case differs.
- `MediaType` parsing, compatibility, `getMostSpecificMediaType`, `sortBySpecificityAndQuality`, `OrderComparator.sort`, `AntPathMatcher`, and `UrlPathHelper` are uninterpreted functions or parameters. `Character.isWhitespace` is a fixed set of characters, namely those the JDKs of this release count, so Unicode revisions after them are not followed.
- The ContentNegotiationManager: `resolveMediaTypes` is a parameter, where None stands for `HttpMediaTypeNotAcceptableException`, and `resolveFileExtensions` is a field. The manager factory, `afterPropertiesSet`, and the warning logged when no resolver is found are not modelled.
- ContentNegotiation.ContentNegotiatingViewResolver.ResolveViewName, ContentNegotiation.ContentNegotiatingViewResolver.GetCandidateViews: these require `initServletContext` to have set the delegate resolvers. Without that, the source dereferences a null list; that failure is not modelled. The `ServletRequestAttributes` assertion is also not modelled.
- `initServletContext` for explicitly configured resolvers: `initializeBean` on those resolvers that are not beans in the context only initializes beans. It changes no list the model tracks, so it is left out.
- The `extendInterceptors` hook (empty in this class) and `detectMappedInterceptors`'s bean-factory scan are not modelled. The scan's result is the parameter `detected` of `InitApplicationContext`.
- `getHandler`'s bean lookup for a handler name is a map from names to handlers. `getHandlerInternal` is a parameter.
- `ValueConstants.DEFAULT_NONE` is not part of this model; its value is copied into `NamedValue.DEFAULT_NONE`. `createNamedValueInfo`, `resolveName`, `handleMissingValue`, the binder's `convertIfNecessary` and the bean factory's placeholder and SpEL evaluation are functions. `handleResolvedValue` does nothing in this class and is not modelled.
- NamedValue.AbstractNamedValueMethodArgumentResolver.GetNamedValueInfo: the cache is a single-threaded map. Races between threads on the `ConcurrentHashMap` are not modelled.
- `readWithMessageConverters` and `writeWithMessageConverters` are parameters of `RequestBody.ResolveArgument` and `RequestBody.HandleReturnValue`. This covers stream peeking and pushback for an optional body, and message-converter selection. `Conventions.getVariableNameForParameter` is also a parameter.
- In `ExceptionHandlerExceptionResolver`, the list of message converters, the argument resolvers and return-value handlers being set on the invocable method, and the argument resolution of the exception-handler method are not modelled. The handler's invocation is a function that returns the container or throws. Scanning a bean type for `@ExceptionHandler` methods is the `Introspection` parameter.
- Integer widths: identity hash codes and ids are unbounded naturals, and the source does no arithmetic on them.
