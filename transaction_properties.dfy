/**
 * Properties of the transaction demarcation functions of module TransactionAspect:
 * how often the target runs, when no manager is called, which outcome the caller
 * sees, and agreement of the two execution strategies.
 */
module TransactionProperties {
  import opened Wrappers
  import opened TransactionAspect

  // ---------------------------------------------------------------- counting

  function CountProceeds(es: seq<Event>): nat
  {
    if es == [] then 0 else (if es[0].Proceed? then 1 else 0) + CountProceeds(es[1..])
  }

  predicate NoManagerCalls(es: seq<Event>)
  {
    forall i :: 0 <= i < |es| ==> !IsManagerCall(es[i])
  }

  lemma {:induction false} CountProceedsAppend(a: seq<Event>, b: seq<Event>)
    ensures CountProceeds(a + b) == CountProceeds(a) + CountProceeds(b)
  {
    if a == [] {
      assert a + b == b;
    } else {
      assert (a + b)[1..] == a[1..] + b;
      CountProceedsAppend(a[1..], b);
    }
  }

  /** Completion calls never run the target. */
  lemma {:induction false} ManagerCallsDoNotProceed(es: seq<Event>)
    requires forall i :: 0 <= i < |es| ==> IsManagerCall(es[i])
    ensures CountProceeds(es) == 0
  {
    if es != [] {
      ManagerCallsDoNotProceed(es[1..]);
    }
  }

  /** Manager calls around one Proceed add exactly that one to the count. */
  lemma CountAroundProceed(pre: seq<Event>, joinpoint: string, events: seq<Event>, post: seq<Event>)
    requires forall i :: 0 <= i < |pre| ==> IsManagerCall(pre[i])
    requires forall i :: 0 <= i < |post| ==> IsManagerCall(post[i])
    ensures CountProceeds(pre + [Proceed(joinpoint)] + events + post) == 1 + CountProceeds(events)
  {
    ManagerCallsDoNotProceed(pre);
    ManagerCallsDoNotProceed(post);
    CountProceedsAppend(pre, [Proceed(joinpoint)]);
    CountProceedsAppend(pre + [Proceed(joinpoint)], events);
    CountProceedsAppend(pre + [Proceed(joinpoint)] + events, post);
    assert [Proceed(joinpoint)][1..] == [];
  }

  /** One Proceed followed by manager calls adds exactly that one to the count. */
  lemma CountProceedThen(joinpoint: string, events: seq<Event>, post: seq<Event>)
    requires forall i :: 0 <= i < |post| ==> IsManagerCall(post[i])
    ensures CountProceeds([Proceed(joinpoint)] + events + post) == 1 + CountProceeds(events)
  {
    ManagerCallsDoNotProceed(post);
    CountProceedsAppend([Proceed(joinpoint)], events);
    CountProceedsAppend([Proceed(joinpoint)] + events, post);
    assert [Proceed(joinpoint)][1..] == [];
  }

  /** The number of intercepted invocations in a call tree, the root included. */
  function InvocationCount(inv: Invocation): nat
    decreases inv, 1
  {
    1 + CalleeCount(inv.body)
  }

  function CalleeCount(body: Body): nat
    decreases body, 0
  {
    match body
    case Return(_) => 0
    case Throw(_) => 0
    case QueryStatus(rest) => CalleeCount(rest)
    case Invoke(callee, rest) => InvocationCount(callee) + CalleeCount(rest)
  }

  /** Manager resolution and the opening of the transaction succeed for this invocation. */
  predicate SetupSucceeds(aspect: Aspect, inv: Invocation)
  {
    var attr := aspect.attributeSource(inv.javaMethod, inv.targetClass);
    var resolved := DetermineTransactionManager(aspect, attr);
    resolved.Normal? &&
    var tm := resolved.value;
    var joinpoint := MethodIdentification(aspect, inv.javaMethod, inv.targetClass);
    if attr.None? || tm.None? || !tm.value.callbackPreferring then
      Begin(tm, NamedAttribute(attr, joinpoint)).Normal?
    else tm.value.begin(attr.value).Normal?
  }

  predicate AllSetupsSucceed(aspect: Aspect, inv: Invocation)
    decreases inv, 1
  {
    SetupSucceeds(aspect, inv) && BodySetupsSucceed(aspect, inv.body)
  }

  predicate BodySetupsSucceed(aspect: Aspect, body: Body)
    decreases body, 0
  {
    match body
    case Return(_) => true
    case Throw(_) => true
    case QueryStatus(rest) => BodySetupsSucceed(aspect, rest)
    case Invoke(callee, rest) => AllSetupsSucceed(aspect, callee) && BodySetupsSucceed(aspect, rest)
  }

  /**
   * The target of every invocation runs at most once, and exactly once when manager
   * resolution and transaction begin succeed throughout the call tree.
   */
  lemma {:induction false} ProceedsOncePerInvocation(aspect: Aspect, inv: Invocation, outer: Option<string>)
    ensures CountProceeds(Run(aspect, inv, outer).events) <= InvocationCount(inv)
    ensures AllSetupsSucceed(aspect, inv) ==> CountProceeds(Run(aspect, inv, outer).events) == InvocationCount(inv)
    decreases inv, 2
  {
    RunSteps(aspect, inv, outer);
    var attr := aspect.attributeSource(inv.javaMethod, inv.targetClass);
    var resolved := DetermineTransactionManager(aspect, attr);
    if resolved.Normal? {
      var tm := resolved.value;
      var joinpoint := MethodIdentification(aspect, inv.javaMethod, inv.targetClass);
      if attr.None? || tm.None? || !tm.value.callbackPreferring {
        StandardRunProceeds(aspect, inv.body, tm, NamedAttribute(attr, joinpoint), joinpoint, outer);
      } else {
        CallbackRunProceeds(aspect, inv.body, tm.value, attr.value, joinpoint, outer);
      }
    }
  }

  /** The standard path proceeds once, after a successful begin, around the target's own count. */
  lemma {:induction false} StandardRunProceeds(aspect: Aspect, body: Body, tm: Option<TransactionManager>,
                                               attr: Option<TransactionAttribute>, joinpoint: string, outer: Option<string>)
    ensures CountProceeds(StandardRun(aspect, body, tm, attr, joinpoint, outer).events) <= 1 + CalleeCount(body)
    ensures Begin(tm, attr).Normal? && BodySetupsSucceed(aspect, body)
      ==> CountProceeds(StandardRun(aspect, body, tm, attr, joinpoint, outer).events) == 1 + CalleeCount(body)
    decreases body, 2
  {
    var pre := BeginEvents(tm, attr);
    StandardRunSteps(aspect, body, tm, attr, joinpoint, outer);
    ManagerCallsDoNotProceed(pre);
    if Begin(tm, attr).Normal? {
      var tail := StandardTail(aspect, body, tm, attr, Begin(tm, attr).value, joinpoint, outer);
      StandardTailProceeds(aspect, body, tm, attr, Begin(tm, attr).value, joinpoint, outer);
      CountProceedsAppend(pre, tail.events);
    }
  }

  /** Once the frame is bound, the standard path proceeds once around the target's own count. */
  lemma {:induction false} StandardTailProceeds(aspect: Aspect, body: Body, tm: Option<TransactionManager>,
                                                attr: Option<TransactionAttribute>, status: Option<TransactionStatus>,
                                                joinpoint: string, outer: Option<string>)
    ensures CountProceeds(StandardTail(aspect, body, tm, attr, status, joinpoint, outer).events) <= 1 + CalleeCount(body)
    ensures BodySetupsSucceed(aspect, body)
      ==> CountProceeds(StandardTail(aspect, body, tm, attr, status, joinpoint, outer).events) == 1 + CalleeCount(body)
    decreases body, 1
  {
    var t := RunBody(aspect, body, status, joinpoint);
    BodyProceedsOncePerInvocation(aspect, body, status, joinpoint);
    var c := StandardCompletion(tm, attr, status, t.outcome, joinpoint, outer);
    StandardTailSteps(aspect, body, tm, attr, status, joinpoint, outer);
    CountProceedThen(joinpoint, t.events, c.events);
  }

  /** The callback path proceeds once, after a successful begin, around the target's own count. */
  lemma {:induction false} CallbackRunProceeds(aspect: Aspect, body: Body, tm: TransactionManager,
                                               attr: TransactionAttribute, joinpoint: string, outer: Option<string>)
    ensures CountProceeds(CallbackRun(aspect, body, tm, attr, joinpoint, outer).events) <= 1 + CalleeCount(body)
    ensures tm.begin(attr).Normal? && BodySetupsSucceed(aspect, body)
      ==> CountProceeds(CallbackRun(aspect, body, tm, attr, joinpoint, outer).events) == 1 + CalleeCount(body)
    decreases body, 1
  {
    var start := [Execute(tm, attr.name)];
    if tm.begin(attr).Normal? {
      var status := tm.begin(attr).value;
      var t := RunBody(aspect, body, Some(status), joinpoint);
      BodyProceedsOncePerInvocation(aspect, body, Some(status), joinpoint);
      var e := ExecuteCompletion(tm, status, DoInTransactionOutcome(attr, t.outcome), outer);
      CountAroundProceed(start, joinpoint, t.events, e.events);
    } else {
      ManagerCallsDoNotProceed(start);
    }
  }

  lemma {:induction false} BodyProceedsOncePerInvocation(aspect: Aspect, body: Body, status: Option<TransactionStatus>,
                                                         joinpoint: string)
    ensures CountProceeds(RunBody(aspect, body, status, joinpoint).events) <= CalleeCount(body)
    ensures BodySetupsSucceed(aspect, body)
      ==> CountProceeds(RunBody(aspect, body, status, joinpoint).events) == CalleeCount(body)
    decreases body, 0
  {
    match body
    case Return(_) =>
    case Throw(_) =>
    case QueryStatus(rest) =>
      BodyProceedsOncePerInvocation(aspect, rest, status, joinpoint);
      CountProceedsAppend([StatusQueried(Normal(status))], RunBody(aspect, rest, status, joinpoint).events);
    case Invoke(callee, rest) =>
      ProceedsOncePerInvocation(aspect, callee, Some(joinpoint));
      BodyProceedsOncePerInvocation(aspect, rest, status, joinpoint);
      CountProceedsAppend(Run(aspect, callee, Some(joinpoint)).events, RunBody(aspect, rest, status, joinpoint).events);
  }

  // ---------------------------------------------------------------- non-transactional join points

  /**
   * No transaction is needed here: the join point has no attribute, or resolution
   * succeeds without yielding a manager.
   */
  predicate Untransacted(aspect: Aspect, inv: Invocation)
  {
    var attr := aspect.attributeSource(inv.javaMethod, inv.targetClass);
    attr.None? || DetermineTransactionManager(aspect, attr) == Normal(None)
  }

  predicate AllUntransacted(aspect: Aspect, inv: Invocation)
    decreases inv, 1
  {
    Untransacted(aspect, inv) && BodyUntransacted(aspect, inv.body)
  }

  predicate BodyUntransacted(aspect: Aspect, body: Body)
    decreases body, 0
  {
    match body
    case Return(_) => true
    case Throw(_) => true
    case QueryStatus(rest) => BodyUntransacted(aspect, rest)
    case Invoke(callee, rest) => AllUntransacted(aspect, callee) && BodyUntransacted(aspect, rest)
  }

  /**
   * When no invocation in the call tree needs a transaction, no getTransaction,
   * execute, commit or rollback is issued, the target runs once per invocation, its
   * outcome reaches the caller unchanged, and a status query inside it answers null.
   */
  lemma {:induction false} UntransactedIsTransparent(aspect: Aspect, inv: Invocation, outer: Option<string>)
    requires AllUntransacted(aspect, inv)
    ensures NoManagerCalls(Run(aspect, inv, outer).events)
    ensures CountProceeds(Run(aspect, inv, outer).events) == InvocationCount(inv)
    ensures var joinpoint := MethodIdentification(aspect, inv.javaMethod, inv.targetClass);
            Run(aspect, inv, outer)
            == Trace([Proceed(joinpoint)] + RunBody(aspect, inv.body, None, joinpoint).events,
                     RunBody(aspect, inv.body, None, joinpoint).outcome)
    decreases inv, 2
  {
    var joinpoint := MethodIdentification(aspect, inv.javaMethod, inv.targetClass);
    UntransactedRun(aspect, inv, outer);
    BodyUntransactedIsTransparent(aspect, inv.body, joinpoint);
    var t := RunBody(aspect, inv.body, None, joinpoint);
    assert [Proceed(joinpoint)][1..] == [];
    CountProceedsAppend([Proceed(joinpoint)], t.events);
  }

  /** One untransacted invocation: the target runs between no manager calls, with no status. */
  lemma UntransactedRun(aspect: Aspect, inv: Invocation, outer: Option<string>)
    requires Untransacted(aspect, inv)
    ensures var joinpoint := MethodIdentification(aspect, inv.javaMethod, inv.targetClass);
            Run(aspect, inv, outer)
            == Trace([Proceed(joinpoint)] + RunBody(aspect, inv.body, None, joinpoint).events,
                     RunBody(aspect, inv.body, None, joinpoint).outcome)
  {
    var attr := aspect.attributeSource(inv.javaMethod, inv.targetClass);
    var joinpoint := MethodIdentification(aspect, inv.javaMethod, inv.targetClass);
    RunSteps(aspect, inv, outer);
    StandardRunWithoutTransaction(aspect, inv.body, DetermineTransactionManager(aspect, attr).value,
                                  NamedAttribute(attr, joinpoint), joinpoint, outer);
  }

  /** Without a manager or an attribute the standard path only runs the target. */
  lemma StandardRunWithoutTransaction(aspect: Aspect, body: Body, tm: Option<TransactionManager>,
                                      attr: Option<TransactionAttribute>, joinpoint: string, outer: Option<string>)
    requires tm.None? || attr.None?
    ensures StandardRun(aspect, body, tm, attr, joinpoint, outer)
            == Trace([Proceed(joinpoint)] + RunBody(aspect, body, None, joinpoint).events,
                     RunBody(aspect, body, None, joinpoint).outcome)
  {
    StandardRunSteps(aspect, body, tm, attr, joinpoint, outer);
    StandardTailSteps(aspect, body, tm, attr, None, joinpoint, outer);
    assert [] + ([Proceed(joinpoint)] + RunBody(aspect, body, None, joinpoint).events + [])
           == [Proceed(joinpoint)] + RunBody(aspect, body, None, joinpoint).events;
  }

  lemma {:induction false} BodyUntransactedIsTransparent(aspect: Aspect, body: Body, joinpoint: string)
    requires BodyUntransacted(aspect, body)
    ensures NoManagerCalls(RunBody(aspect, body, None, joinpoint).events)
    ensures CountProceeds(RunBody(aspect, body, None, joinpoint).events) == CalleeCount(body)
    decreases body, 0
  {
    match body
    case Return(_) =>
    case Throw(_) =>
    case QueryStatus(rest) =>
      BodyUntransactedIsTransparent(aspect, rest, joinpoint);
      CountProceedsAppend([StatusQueried(Normal(None))], RunBody(aspect, rest, None, joinpoint).events);
    case Invoke(callee, rest) =>
      UntransactedIsTransparent(aspect, callee, Some(joinpoint));
      BodyUntransactedIsTransparent(aspect, rest, joinpoint);
      CountProceedsAppend(Run(aspect, callee, Some(joinpoint)).events, RunBody(aspect, rest, None, joinpoint).events);
  }

  // ---------------------------------------------------------------- outcomes on the standard path

  /**
   * Normal return with a transaction: getTransaction with the defaulted name, the
   * target, then one commit of that same status issued after the frame is restored;
   * the target's value is returned unless the commit throws.
   */
  lemma StandardCommitAfterReturn(aspect: Aspect, body: Body, tm: TransactionManager, attr: TransactionAttribute,
                                  joinpoint: string, outer: Option<string>, status: TransactionStatus, v: nat)
    requires NamedAttribute(Some(attr), joinpoint) == Some(attr)
    requires tm.begin(attr) == Normal(status)
    requires RunBody(aspect, body, Some(status), joinpoint).outcome == Normal(v)
    ensures var t := StandardRun(aspect, body, Some(tm), Some(attr), joinpoint, outer);
            t.events == [GetTransaction(tm, attr.name), Proceed(joinpoint)]
                        + RunBody(aspect, body, Some(status), joinpoint).events + [Commit(tm, status, outer)]
            && t.outcome == (if tm.commitFailure(status).Some? then Thrown(tm.commitFailure(status).value) else Normal(v))
  {
  }

  /**
   * A throwing target with a transaction: rollback when rollbackOn holds, commit
   * otherwise, both issued while the frame is still bound; the caller sees the
   * original throwable unless completion fails, and then the failure, carrying
   * the original when it is a TransactionSystemException.
   */
  lemma StandardCompletionAfterThrow(aspect: Aspect, body: Body, tm: TransactionManager, attr: TransactionAttribute,
                                     joinpoint: string, outer: Option<string>, status: TransactionStatus, ex: Throwable)
    requires tm.begin(attr) == Normal(status)
    requires RunBody(aspect, body, Some(status), joinpoint).outcome == Thrown(ex)
    ensures var t := StandardRun(aspect, body, Some(tm), Some(attr), joinpoint, outer);
            var failure := if attr.rollbackOn(ex) then tm.rollbackFailure(status) else tm.commitFailure(status);
            t.events == [GetTransaction(tm, attr.name), Proceed(joinpoint)]
                        + RunBody(aspect, body, Some(status), joinpoint).events
                        + [if attr.rollbackOn(ex) then Rollback(tm, status, Some(joinpoint))
                           else Commit(tm, status, Some(joinpoint))]
            && t.outcome == Thrown(if failure.Some? then OverriddenBy(ex, failure.value) else ex)
  {
  }

  // ---------------------------------------------------------------- the two strategies agree

  /**
   * When the manager's begin, commit and rollback succeed, the callback-preferring
   * path and the standard path give the caller the target's own outcome, and both
   * roll back exactly when the target threw a rollback-worthy throwable.
   */
  lemma StrategiesAgree(aspect: Aspect, body: Body, tm: TransactionManager, attr: TransactionAttribute,
                        joinpoint: string, outer: Option<string>, status: TransactionStatus)
    requires tm.begin(attr) == Normal(status)
    requires tm.commitFailure(status).None? && tm.rollbackFailure(status).None?
    ensures var target := RunBody(aspect, body, Some(status), joinpoint);
            var standard := StandardRun(aspect, body, Some(tm), Some(attr), joinpoint, outer);
            var callback := CallbackRun(aspect, body, tm, attr, joinpoint, outer);
            var rolledBack := target.outcome.Thrown? && attr.rollbackOn(target.outcome.ex);
            standard.outcome == target.outcome && callback.outcome == target.outcome
            && standard.events[|standard.events| - 1].Rollback? == rolledBack
            && callback.events[|callback.events| - 1].Rollback? == rolledBack
  {
  }

  /**
   * On the callback-preferring path a status query in the target sees the
   * manager's status, and a nameless attribute reaches `execute` still nameless.
   */
  lemma CallbackPathKeepsAttribute(aspect: Aspect, body: Body, tm: TransactionManager, attr: TransactionAttribute,
                                   joinpoint: string, outer: Option<string>, status: TransactionStatus, rest: Body)
    requires tm.begin(attr) == Normal(status) && body == QueryStatus(rest)
    ensures var t := CallbackRun(aspect, body, tm, attr, joinpoint, outer);
            t.events[0] == Execute(tm, attr.name) && t.events[1] == Proceed(joinpoint)
            && t.events[2] == StatusQueried(Normal(Some(status)))
  {
  }

  /**
   * A non-transactional method called from a transactional one binds a placeholder
   * frame: whatever its body is, it runs with a null status, so currentTransactionStatus
   * inside it answers null; once it returns, the caller's own status is visible again
   * for whatever the caller does next.
   */
  lemma PlaceholderHidesOuterStatus(aspect: Aspect, callee: Invocation, rest: Body, status: TransactionStatus,
                                    joinpoint: string)
    requires aspect.attributeSource(callee.javaMethod, callee.targetClass).None?
    ensures var calleeId := MethodIdentification(aspect, callee.javaMethod, callee.targetClass);
            var t := RunBody(aspect, Invoke(callee, rest), Some(status), joinpoint);
            t.events == [Proceed(calleeId)] + RunBody(aspect, callee.body, None, calleeId).events
                        + RunBody(aspect, rest, Some(status), joinpoint).events
            && t.outcome == RunBody(aspect, rest, Some(status), joinpoint).outcome
  {
    UntransactedRun(aspect, callee, Some(joinpoint));
  }

  /** For instance, a status query before and after the call sees null inside the callee and the status after. */
  lemma PlaceholderExample(aspect: Aspect, callee: Invocation, status: TransactionStatus, joinpoint: string)
    requires aspect.attributeSource(callee.javaMethod, callee.targetClass).None?
    requires callee.body == QueryStatus(Return(0))
    ensures var calleeId := MethodIdentification(aspect, callee.javaMethod, callee.targetClass);
            RunBody(aspect, Invoke(callee, QueryStatus(Return(1))), Some(status), joinpoint).events
            == [Proceed(calleeId), StatusQueried(Normal(None)), StatusQueried(Normal(Some(status)))]
  {
    PlaceholderHidesOuterStatus(aspect, callee, QueryStatus(Return(1)), status, joinpoint);
  }
}
