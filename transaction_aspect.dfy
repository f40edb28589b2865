/**
 * Declarative transaction demarcation of spring-tx's TransactionAspectSupport.
 *
 * One intercepted call looks up its transaction attribute, resolves a transaction
 * manager, binds a TransactionInfo frame to the thread, runs the target and then
 * commits or rolls back.  The thread-local holder is the field `current` of an
 * explicit ThreadContext; every call made to a transaction manager or to a target
 * is appended to that context's `log`, so that the order of calls is observable.
 *
 * The model has two layers.  `Run` and its helpers are pure functions giving the
 * calls issued and the outcome of one invocation; the methods below them are the
 * imperative algorithm over heap frames, and their postconditions tie each method
 * to the matching function.
 */
module TransactionAspect {
  import opened Wrappers

  // ---------------------------------------------------------------- exceptions

  /** Java's three kinds of throwable: checked Exception, RuntimeException, Error. */
  datatype Kind = Checked | Unchecked | Fatal

  datatype Throwable =
    | Raised(id: nat, kind: Kind)
    | TransactionSystemException(id: nat, applicationException: Option<Throwable>)
    | NoSuchBeanDefinitionException(bean: string)
    | NoUniqueBeanDefinitionException(candidates: nat)
    | NoTransactionException

  predicate IsRuntimeException(t: Throwable)
  {
    match t
    case Raised(_, kind) => kind == Unchecked
    case _ => true
  }

  /** A Java call either returns a value or throws. */
  datatype Outcome<+T> = Normal(value: T) | Thrown(ex: Throwable)

  // ---------------------------------------------------------------- collaborators

  datatype TransactionStatus = TransactionStatus(id: nat)

  /**
   * The parts of a TransactionAttribute the aspect reads.  `rollbackOn` is the
   * attribute's rollback-rule decision, left uninterpreted.
   */
  datatype TransactionAttribute = TransactionAttribute(
    name: Option<string>,
    qualifier: Option<string>,
    rollbackOn: Throwable -> bool)

  /**
   * A PlatformTransactionManager.  Its internals are abstract: `begin` is what
   * getTransaction returns or throws, and `commitFailure` / `rollbackFailure` say
   * whether commit or rollback of a status throws.  A callback-preferring manager
   * is one whose `execute` wraps the whole unit of work.
   */
  class TransactionManager {
    const callbackPreferring: bool
    const begin: TransactionAttribute -> Outcome<TransactionStatus>
    const commitFailure: TransactionStatus -> Option<Throwable>
    const rollbackFailure: TransactionStatus -> Option<Throwable>

    constructor (callbackPreferring: bool,
                 begin: TransactionAttribute -> Outcome<TransactionStatus>,
                 commitFailure: TransactionStatus -> Option<Throwable>,
                 rollbackFailure: TransactionStatus -> Option<Throwable>)
      ensures this.callbackPreferring == callbackPreferring && this.begin == begin
      ensures this.commitFailure == commitFailure && this.rollbackFailure == rollbackFailure
    {
      this.callbackPreferring := callbackPreferring;
      this.begin := begin;
      this.commitFailure := commitFailure;
      this.rollbackFailure := rollbackFailure;
    }
  }

  /** The managers a bean factory can hand out: by qualifier, by bean name, by type. */
  datatype BeanFactory = BeanFactory(
    byQualifier: map<string, TransactionManager>,
    byName: map<string, TransactionManager>,
    ofType: seq<TransactionManager>)

  ghost predicate Registered(bf: BeanFactory, tm: TransactionManager)
  {
    tm in bf.byQualifier.Values || tm in bf.byName.Values || tm in bf.ofType
  }

  datatype JavaMethod = JavaMethod(declaringClass: string, name: string)

  /**
   * The configuration of a TransactionAspectSupport instance.  `attributeSource`
   * is its TransactionAttributeSource, `simpleMethodIdentification` the deprecated
   * one-argument methodIdentification hook (null in the base class).
   */
  datatype Aspect = Aspect(
    transactionManager: Option<TransactionManager>,
    transactionManagerBeanName: Option<string>,
    beanFactory: Option<BeanFactory>,
    attributeSource: (JavaMethod, Option<string>) -> Option<TransactionAttribute>,
    simpleMethodIdentification: JavaMethod -> Option<string>)

  /**
   * The target of an intercepted call.  It returns, throws, asks for the current
   * transaction status, or calls another intercepted method (catching whatever that
   * call throws) and then goes on.
   */
  datatype Body =
    | Return(result: nat)
    | Throw(ex: Throwable)
    | QueryStatus(rest: Body)
    | Invoke(callee: Invocation, rest: Body)

  datatype Invocation = Invocation(javaMethod: JavaMethod, targetClass: Option<string>, body: Body)

  /**
   * The calls that can be observed.  Commit and Rollback record the join point of the
   * frame bound when they were issued (None when the holder was empty), which shows
   * whether the frame had already been restored.
   */
  datatype Event =
    | GetTransaction(tm: TransactionManager, name: Option<string>)
    | Execute(tm: TransactionManager, name: Option<string>)
    | Commit(tm: TransactionManager, status: TransactionStatus, during: Option<string>)
    | Rollback(tm: TransactionManager, status: TransactionStatus, during: Option<string>)
    | Proceed(joinpoint: string)
    | StatusQueried(answer: Outcome<Option<TransactionStatus>>)

  predicate IsManagerCall(e: Event)
  {
    e.GetTransaction? || e.Execute? || e.Commit? || e.Rollback?
  }

  datatype Trace = Trace(events: seq<Event>, outcome: Outcome<nat>)

  // ---------------------------------------------------------------- resolution

  predicate HasLength(s: Option<string>)
  {
    s.Some? && |s.value| > 0
  }

  /** BeanFactory.getBean(PlatformTransactionManager.class): exactly one candidate. */
  function BeanOfType(bf: BeanFactory): (r: Outcome<TransactionManager>)
    ensures r.Normal? <==> |bf.ofType| == 1
    ensures r.Normal? ==> r.value == bf.ofType[0]
    ensures |bf.ofType| > 1 ==> r == Thrown(NoUniqueBeanDefinitionException(|bf.ofType|))
  {
    if |bf.ofType| == 1 then Normal(bf.ofType[0])
    else if |bf.ofType| == 0 then Thrown(NoSuchBeanDefinitionException("PlatformTransactionManager"))
    else Thrown(NoUniqueBeanDefinitionException(|bf.ofType|))
  }

  function DetermineTransactionManager(aspect: Aspect, attr: Option<TransactionAttribute>)
    : (r: Outcome<Option<TransactionManager>>)
    // a configured manager, a missing factory or a missing attribute: the field, no lookup
    ensures aspect.transactionManager.Some? || aspect.beanFactory.None? || attr.None?
      ==> r == Normal(aspect.transactionManager)
    // otherwise the manager is one the bean factory holds, and failure is a lookup failure
    ensures r.Normal? && aspect.transactionManager.None? && r.value.Some?
      ==> aspect.beanFactory.Some? && Registered(aspect.beanFactory.value, r.value.value)
    ensures r.Thrown? ==> aspect.transactionManager.None? && aspect.beanFactory.Some? && attr.Some?
    ensures r.Thrown? ==> r.ex.NoSuchBeanDefinitionException? || r.ex.NoUniqueBeanDefinitionException?
  {
    if aspect.transactionManager.Some? || aspect.beanFactory.None? || attr.None? then
      Normal(aspect.transactionManager)
    else
      var bf := aspect.beanFactory.value;
      var qualifier := attr.value.qualifier;
      if HasLength(qualifier) then
        if qualifier.value in bf.byQualifier then Normal(Some(bf.byQualifier[qualifier.value]))
        else Thrown(NoSuchBeanDefinitionException(qualifier.value))
      else if aspect.transactionManagerBeanName.Some? then
        var name := aspect.transactionManagerBeanName.value;
        if name in bf.byName then Normal(Some(bf.byName[name]))
        else Thrown(NoSuchBeanDefinitionException(name))
      else
        match BeanOfType(bf)
        case Normal(tm) => Normal(Some(tm))
        case Thrown(e) => Thrown(e)
  }

  /** A non-empty qualifier decides alone: the default bean name and the by-type candidates are not consulted. */
  lemma QualifierTakesPrecedence(aspect: Aspect, attr: TransactionAttribute, beanName: Option<string>,
                                 byName: map<string, TransactionManager>, ofType: seq<TransactionManager>)
    requires aspect.transactionManager.None? && aspect.beanFactory.Some? && HasLength(attr.qualifier)
    ensures var other := aspect.(transactionManagerBeanName := beanName,
                                 beanFactory := Some(aspect.beanFactory.value.(byName := byName, ofType := ofType)));
            DetermineTransactionManager(other, Some(attr)) == DetermineTransactionManager(aspect, Some(attr))
    ensures attr.qualifier.value in aspect.beanFactory.value.byQualifier
      ==> DetermineTransactionManager(aspect, Some(attr))
          == Normal(Some(aspect.beanFactory.value.byQualifier[attr.qualifier.value]))
  {
  }

  /** Without a qualifier, a default bean name wins over lookup by type. */
  lemma BeanNameBeforeType(aspect: Aspect, attr: TransactionAttribute, ofType: seq<TransactionManager>)
    requires aspect.transactionManager.None? && aspect.beanFactory.Some? && !HasLength(attr.qualifier)
    requires aspect.transactionManagerBeanName.Some?
    ensures var other := aspect.(beanFactory := Some(aspect.beanFactory.value.(ofType := ofType)));
            DetermineTransactionManager(other, Some(attr)) == DetermineTransactionManager(aspect, Some(attr))
  {
  }

  /**
   * The join point identification: the hook's answer when it gives one, else the
   * target class (or, without one, the declaring class) followed by "." and the method name.
   */
  function MethodIdentification(aspect: Aspect, m: JavaMethod, targetClass: Option<string>): (id: string)
    ensures aspect.simpleMethodIdentification(m).Some? ==> id == aspect.simpleMethodIdentification(m).value
    ensures aspect.simpleMethodIdentification(m).None? ==>
      var owner := if targetClass.Some? then targetClass.value else m.declaringClass;
      |id| == |owner| + 1 + |m.name| && id[..|owner|] == owner && id[|owner|] == '.'
      && id[|owner| + 1..] == m.name
  {
    var simple := aspect.simpleMethodIdentification(m);
    if simple.Some? then simple.value
    else (if targetClass.Some? then targetClass.value else m.declaringClass) + "." + m.name
  }

  /** A nameless attribute is given the join point identification as its name; nothing else changes. */
  function NamedAttribute(attr: Option<TransactionAttribute>, joinpoint: string): (r: Option<TransactionAttribute>)
    ensures r.Some? <==> attr.Some?
    ensures r.Some? ==> r.value.name.Some?
    ensures r.Some? && attr.value.name.None? ==> r.value.name == Some(joinpoint)
    ensures r.Some? && attr.value.name.Some? ==> r.value == attr.value
    ensures r.Some? ==> r.value.qualifier == attr.value.qualifier && r.value.rollbackOn == attr.value.rollbackOn
  {
    if attr.Some? && attr.value.name.None? then Some(attr.value.(name := Some(joinpoint))) else attr
  }

  // ---------------------------------------------------------------- completion rules

  /** What getTransaction yields: a status, null when there is no attribute or no manager, or a failure. */
  function Begin(tm: Option<TransactionManager>, attr: Option<TransactionAttribute>): (r: Outcome<Option<TransactionStatus>>)
    ensures attr.None? || tm.None? ==> r == Normal(None)
    ensures r.Normal? && r.value.Some? ==> attr.Some? && tm.Some? && tm.value.begin(attr.value) == Normal(r.value.value)
    ensures r.Thrown? ==> attr.Some? && tm.Some? && tm.value.begin(attr.value) == Thrown(r.ex)
  {
    if attr.Some? && tm.Some? then
      match tm.value.begin(attr.value)
      case Normal(s) => Normal(Some(s))
      case Thrown(e) => Thrown(e)
    else Normal(None)
  }

  function BeginEvents(tm: Option<TransactionManager>, attr: Option<TransactionAttribute>): (es: seq<Event>)
    ensures |es| <= 1
    ensures attr.None? || tm.None? ==> es == []
  {
    if attr.Some? && tm.Some? then [GetTransaction(tm.value, attr.value.name)] else []
  }

  /** The calls a completion step issues, and the secondary failure that replaces the caller's outcome. */
  datatype Completion = Completion(events: seq<Event>, failure: Option<Throwable>)

  /** commitTransactionAfterReturning: commit the frame's status, if it has one. */
  function ReturnCompletion(tm: Option<TransactionManager>, status: Option<TransactionStatus>, during: Option<string>)
    : (c: Completion)
    ensures status.None? || tm.None? ==> c == Completion([], None)
    ensures status.Some? && tm.Some? ==>
      c.events == [Commit(tm.value, status.value, during)] && c.failure == tm.value.commitFailure(status.value)
  {
    if status.Some? && tm.Some? then
      Completion([Commit(tm.value, status.value, during)], tm.value.commitFailure(status.value))
    else Completion([], None)
  }

  /**
   * The throwable that escapes when completion itself fails: a TransactionSystemException
   * carries the application exception along, any other failure escapes as it is.
   */
  function OverriddenBy(ex: Throwable, failure: Throwable): (r: Throwable)
    ensures !failure.TransactionSystemException? ==> r == failure
    ensures failure.TransactionSystemException? ==>
      r.TransactionSystemException? && r.id == failure.id && r.applicationException == Some(ex)
  {
    if failure.TransactionSystemException? then failure.(applicationException := Some(ex)) else failure
  }

  /**
   * completeTransactionAfterThrowing: with a status, roll back when rollbackOn(ex)
   * holds and commit otherwise.  A status is only ever set together with a manager
   * and an attribute, so the extra conditions below never fail when it is set.
   */
  function ThrowCompletion(tm: Option<TransactionManager>, attr: Option<TransactionAttribute>,
                           status: Option<TransactionStatus>, ex: Throwable, during: Option<string>): (c: Completion)
    ensures status.None? ==> c == Completion([], None)
    ensures status.Some? && tm.Some? && attr.Some? && attr.value.rollbackOn(ex) ==>
      c.events == [Rollback(tm.value, status.value, during)]
      && (tm.value.rollbackFailure(status.value).None? <==> c.failure.None?)
    ensures status.Some? && tm.Some? && attr.Some? && !attr.value.rollbackOn(ex) ==>
      c.events == [Commit(tm.value, status.value, during)]
      && (tm.value.commitFailure(status.value).None? <==> c.failure.None?)
  {
    if status.Some? && tm.Some? && attr.Some? then
      var s := status.value;
      var m := tm.value;
      if attr.value.rollbackOn(ex) then
        Completion([Rollback(m, s, during)],
                   if m.rollbackFailure(s).Some? then Some(OverriddenBy(ex, m.rollbackFailure(s).value)) else None)
      else
        Completion([Commit(m, s, during)],
                   if m.commitFailure(s).Some? then Some(OverriddenBy(ex, m.commitFailure(s).value)) else None)
    else Completion([], None)
  }

  // ---------------------------------------------------------------- callback-preferring path

  /**
   * What the TransactionCallback hands back to `execute`: the target's value, a
   * ThrowableHolder around a commit-worthy throwable, a rethrown RuntimeException,
   * or a ThrowableHolderException around any other rollback-worthy throwable.
   */
  datatype CallbackOutcome =
    | ReturnedValue(value: nat)
    | ReturnedHolder(held: Throwable)
    | Threw(ex: Throwable)
    | ThrewHolderException(cause: Throwable)

  predicate CallbackThrew(c: CallbackOutcome)
  {
    c.Threw? || c.ThrewHolderException?
  }

  /** invokeWithinTransaction's handling of what `execute` produced: holders are unwrapped and rethrown. */
  function Unwrap(c: CallbackOutcome): Outcome<nat>
  {
    match c
    case ReturnedValue(v) => Normal(v)
    case ReturnedHolder(t) => Thrown(t)
    case Threw(ex) => Thrown(ex)
    case ThrewHolderException(cause) => Thrown(cause)
  }

  /** doInTransaction's treatment of the target's outcome. */
  function DoInTransactionOutcome(attr: TransactionAttribute, proceeded: Outcome<nat>): (c: CallbackOutcome)
    // once unwrapped, the caller sees exactly what the target produced
    ensures Unwrap(c) == proceeded
    // only rollback-worthy throwables make the callback throw, so that the manager rolls back
    ensures CallbackThrew(c) <==> proceeded.Thrown? && attr.rollbackOn(proceeded.ex)
    // a rollback-worthy RuntimeException is thrown as it is; anything else is wrapped
    ensures c.ThrewHolderException? ==> !IsRuntimeException(proceeded.ex)
    ensures c.Threw? ==> IsRuntimeException(proceeded.ex)
  {
    match proceeded
    case Normal(v) => ReturnedValue(v)
    case Thrown(ex) =>
      if attr.rollbackOn(ex) then
        (if IsRuntimeException(ex) then Threw(ex) else ThrewHolderException(ex))
      else ReturnedHolder(ex)
  }

  datatype Executed = Executed(events: seq<Event>, result: CallbackOutcome)

  /**
   * How a callback-preferring manager ends `execute`: a callback that threw is rolled
   * back and its throwable rethrown; a callback that returned is committed and its
   * value returned.  A failing commit or rollback throws instead.
   */
  function ExecuteCompletion(tm: TransactionManager, status: TransactionStatus, callback: CallbackOutcome,
                             during: Option<string>): (e: Executed)
    ensures CallbackThrew(callback) ==> e.events == [Rollback(tm, status, during)]
    ensures !CallbackThrew(callback) ==> e.events == [Commit(tm, status, during)]
    ensures CallbackThrew(callback) && tm.rollbackFailure(status).None? ==> e.result == callback
    ensures !CallbackThrew(callback) && tm.commitFailure(status).None? ==> e.result == callback
    ensures e.result != callback ==> e.result.Threw?
  {
    if CallbackThrew(callback) then
      Executed([Rollback(tm, status, during)],
               if tm.rollbackFailure(status).Some? then Threw(tm.rollbackFailure(status).value) else callback)
    else
      Executed([Commit(tm, status, during)],
               if tm.commitFailure(status).Some? then Threw(tm.commitFailure(status).value) else callback)
  }

  // ---------------------------------------------------------------- the invocation, as functions

  /**
   * The calls issued and the outcome of one intercepted invocation, when the frame
   * bound at entry belongs to join point `outer` (None: empty holder).
   */
  function Run(aspect: Aspect, inv: Invocation, outer: Option<string>): Trace
    decreases inv, 2
  {
    var attr := aspect.attributeSource(inv.javaMethod, inv.targetClass);
    match DetermineTransactionManager(aspect, attr)
    case Thrown(e) => Trace([], Thrown(e))
    case Normal(tm) =>
      var joinpoint := MethodIdentification(aspect, inv.javaMethod, inv.targetClass);
      if attr.None? || tm.None? || !tm.value.callbackPreferring then
        StandardRun(aspect, inv.body, tm, NamedAttribute(attr, joinpoint), joinpoint, outer)
      else
        CallbackRun(aspect, inv.body, tm.value, attr.value, joinpoint, outer)
  }

  /** Standard demarcation with getTransaction and commit/rollback calls. */
  function StandardRun(aspect: Aspect, body: Body, tm: Option<TransactionManager>, attr: Option<TransactionAttribute>,
                       joinpoint: string, outer: Option<string>): Trace
    decreases body, 2
  {
    var begun := Begin(tm, attr);
    var pre := BeginEvents(tm, attr);
    if begun.Thrown? then Trace(pre, Thrown(begun.ex))
    else
      var tail := StandardTail(aspect, body, tm, attr, begun.value, joinpoint, outer);
      Trace(pre + tail.events, tail.outcome)
  }

  /** The standard path once the frame is bound: the target, then completion. */
  function StandardTail(aspect: Aspect, body: Body, tm: Option<TransactionManager>, attr: Option<TransactionAttribute>,
                        status: Option<TransactionStatus>, joinpoint: string, outer: Option<string>): Trace
    decreases body, 1
  {
    var t := RunBody(aspect, body, status, joinpoint);
    var c := StandardCompletion(tm, attr, status, t.outcome, joinpoint, outer);
    Trace([Proceed(joinpoint)] + t.events + c.events, c.outcome)
  }

  /** What follows the target on the standard path, given the target's outcome. */
  function StandardCompletion(tm: Option<TransactionManager>, attr: Option<TransactionAttribute>,
                              status: Option<TransactionStatus>, outcome: Outcome<nat>,
                              joinpoint: string, outer: Option<string>): Trace
  {
    match outcome
    case Normal(v) =>
      // the frame is restored before the commit
      var c := ReturnCompletion(tm, status, outer);
      Trace(c.events, if c.failure.Some? then Thrown(c.failure.value) else Normal(v))
    case Thrown(ex) =>
      // completion happens while the frame is still bound
      var c := ThrowCompletion(tm, attr, status, ex, Some(joinpoint));
      Trace(c.events, Thrown(if c.failure.Some? then c.failure.value else ex))
  }

  /** Delegation to a callback-preferring manager's `execute`, with the original attribute. */
  function CallbackRun(aspect: Aspect, body: Body, tm: TransactionManager, attr: TransactionAttribute,
                       joinpoint: string, outer: Option<string>): Trace
    decreases body, 1
  {
    var start := [Execute(tm, attr.name)];
    match tm.begin(attr)
    case Thrown(e) => Trace(start, Thrown(e))
    case Normal(status) =>
      var t := RunBody(aspect, body, Some(status), joinpoint);
      var callback := DoInTransactionOutcome(attr, t.outcome);
      var e := ExecuteCompletion(tm, status, callback, outer);
      Trace(start + [Proceed(joinpoint)] + t.events + e.events, Unwrap(e.result))
  }

  /** The target, run while the frame of `joinpoint` with status `status` is bound. */
  function RunBody(aspect: Aspect, body: Body, status: Option<TransactionStatus>, joinpoint: string): Trace
    decreases body, 0
  {
    match body
    case Return(v) => Trace([], Normal(v))
    case Throw(ex) => Trace([], Thrown(ex))
    case QueryStatus(rest) =>
      var t := RunBody(aspect, rest, status, joinpoint);
      Trace([StatusQueried(Normal(status))] + t.events, t.outcome)
    case Invoke(callee, rest) =>
      var c := Run(aspect, callee, Some(joinpoint));
      var t := RunBody(aspect, rest, status, joinpoint);
      Trace(c.events + t.events, t.outcome)
  }

  // ---------------------------------------------------------------- frames and the thread-local holder

  /** One frame of the per-thread stack; `oldTransactionInfo` links to the frame bound before it. */
  class TransactionInfo {
    const transactionManager: Option<TransactionManager>
    const transactionAttribute: Option<TransactionAttribute>
    const joinpointIdentification: string
    var transactionStatus: Option<TransactionStatus>
    var oldTransactionInfo: TransactionInfo?

    constructor (tm: Option<TransactionManager>, attr: Option<TransactionAttribute>, joinpoint: string)
      ensures transactionManager == tm && transactionAttribute == attr && joinpointIdentification == joinpoint
      ensures transactionStatus == None && oldTransactionInfo == null
    {
      transactionManager := tm;
      transactionAttribute := attr;
      joinpointIdentification := joinpoint;
      transactionStatus := None;
      oldTransactionInfo := null;
    }

    method NewTransactionStatus(status: Option<TransactionStatus>)
      modifies this`transactionStatus
      ensures transactionStatus == status
    {
      transactionStatus := status;
    }

    predicate HasTransaction()
      reads this
    {
      transactionStatus.Some?
    }

    /** Records the frame bound so far as this frame's predecessor and binds this frame. */
    method BindToThread(ctx: ThreadContext)
      modifies this`oldTransactionInfo, ctx`current
      ensures oldTransactionInfo == old(ctx.current) && ctx.current == this
    {
      oldTransactionInfo := ctx.current;
      ctx.current := this;
    }

    /** Binds this frame's predecessor again (null if there was none). */
    method RestoreThreadLocalStatus(ctx: ThreadContext)
      modifies ctx`current
      ensures ctx.current == oldTransactionInfo
    {
      ctx.current := oldTransactionInfo;
    }
  }

  /** One thread: the transaction-info holder, and the calls issued so far. */
  class ThreadContext {
    var current: TransactionInfo?
    var log: seq<Event>

    constructor ()
      ensures current == null && log == []
    {
      current := null;
      log := [];
    }

    function CurrentJoinpoint(): Option<string>
      reads this
    {
      if current == null then None else Some(current.joinpointIdentification)
    }

    /** currentTransactionStatus: fails only when no frame is bound; a placeholder frame answers null. */
    function CurrentTransactionStatus(): (r: Outcome<Option<TransactionStatus>>)
      reads this, current
      ensures r.Thrown? <==> current == null
      ensures r.Thrown? ==> r.ex == NoTransactionException
      ensures current != null ==> r == Normal(current.transactionStatus)
    {
      if current == null then Thrown(NoTransactionException) else Normal(current.transactionStatus)
    }
  }

  /** Binding two frames and restoring them in reverse order leaves the holder as it was. */
  method NestedBindRestore(ctx: ThreadContext, outer: TransactionInfo, inner: TransactionInfo)
    requires outer != inner
    modifies ctx`current, outer`oldTransactionInfo, inner`oldTransactionInfo
    ensures ctx.current == old(ctx.current)
    ensures outer.oldTransactionInfo == old(ctx.current) && inner.oldTransactionInfo == outer
  {
    outer.BindToThread(ctx);
    inner.BindToThread(ctx);
    assert ctx.current == inner;
    inner.RestoreThreadLocalStatus(ctx);
    assert ctx.current == outer;
    outer.RestoreThreadLocalStatus(ctx);
  }

  // ---------------------------------------------------------------- the invocation, as methods

  method PrepareTransactionInfo(ctx: ThreadContext, tm: Option<TransactionManager>, attr: Option<TransactionAttribute>,
                                joinpoint: string, status: Option<TransactionStatus>) returns (info: TransactionInfo)
    modifies ctx`current
    ensures fresh(info) && ctx.current == info && info.oldTransactionInfo == old(ctx.current)
    ensures info.transactionManager == tm && info.transactionAttribute == attr
    ensures info.joinpointIdentification == joinpoint
    // a frame without an attribute is a placeholder: it has no transaction
    ensures info.transactionStatus == (if attr.Some? then status else None)
  {
    info := new TransactionInfo(tm, attr, joinpoint);
    if attr.Some? {
      info.NewTransactionStatus(status);
    }
    // bound even without a transaction, to keep the stack of frames intact
    info.BindToThread(ctx);
  }

  method CreateTransactionIfNecessary(ctx: ThreadContext, tm: Option<TransactionManager>,
                                     attr0: Option<TransactionAttribute>, joinpoint: string)
    returns (r: Outcome<TransactionInfo>)
    modifies ctx
    ensures var attr := NamedAttribute(attr0, joinpoint);
            ctx.log == old(ctx.log) + BeginEvents(tm, attr)
            && (r.Thrown? <==> Begin(tm, attr).Thrown?)
            && (r.Thrown? ==> r.ex == Begin(tm, attr).ex && ctx.current == old(ctx.current))
            && (r.Normal? ==> fresh(r.value) && ctx.current == r.value
                              && r.value.oldTransactionInfo == old(ctx.current)
                              && r.value.transactionManager == tm && r.value.transactionAttribute == attr
                              && r.value.joinpointIdentification == joinpoint
                              && r.value.transactionStatus == Begin(tm, attr).value)
  {
    var attr := NamedAttribute(attr0, joinpoint);
    var status: Option<TransactionStatus> := None;
    if attr.Some? && tm.Some? {
      ctx.log := ctx.log + [GetTransaction(tm.value, attr.value.name)];
      var begun := tm.value.begin(attr.value);
      if begun.Thrown? {
        return Thrown(begun.ex);
      }
      status := Some(begun.value);
    }
    var info := PrepareTransactionInfo(ctx, tm, attr, joinpoint, status);
    r := Normal(info);
  }

  method CommitTransactionAfterReturning(ctx: ThreadContext, info: TransactionInfo) returns (failure: Option<Throwable>)
    modifies ctx`log
    ensures var c := ReturnCompletion(info.transactionManager, info.transactionStatus, old(ctx.CurrentJoinpoint()));
            ctx.log == old(ctx.log) + c.events && failure == c.failure
  {
    failure := None;
    if info.HasTransaction() && info.transactionManager.Some? {
      var tm := info.transactionManager.value;
      var status := info.transactionStatus.value;
      ctx.log := ctx.log + [Commit(tm, status, ctx.CurrentJoinpoint())];
      failure := tm.commitFailure(status);
    }
  }

  method CompleteTransactionAfterThrowing(ctx: ThreadContext, info: TransactionInfo, ex: Throwable)
    returns (failure: Option<Throwable>)
    modifies ctx`log
    ensures var c := ThrowCompletion(info.transactionManager, info.transactionAttribute, info.transactionStatus,
                                     ex, old(ctx.CurrentJoinpoint()));
            ctx.log == old(ctx.log) + c.events && failure == c.failure
  {
    failure := None;
    if info.HasTransaction() && info.transactionManager.Some? && info.transactionAttribute.Some? {
      var tm := info.transactionManager.value;
      var status := info.transactionStatus.value;
      if info.transactionAttribute.value.rollbackOn(ex) {
        ctx.log := ctx.log + [Rollback(tm, status, ctx.CurrentJoinpoint())];
        var ex2 := tm.rollbackFailure(status);
        if ex2.Some? {
          failure := Some(OverriddenBy(ex, ex2.value));
        }
      } else {
        // not rolled back on this throwable: committed (unless the status is rollback-only)
        ctx.log := ctx.log + [Commit(tm, status, ctx.CurrentJoinpoint())];
        var ex2 := tm.commitFailure(status);
        if ex2.Some? {
          failure := Some(OverriddenBy(ex, ex2.value));
        }
      }
    }
  }

  method CleanupTransactionInfo(ctx: ThreadContext, info: TransactionInfo)
    modifies ctx`current
    ensures ctx.current == info.oldTransactionInfo
  {
    info.RestoreThreadLocalStatus(ctx);
  }

  /**
   * invokeWithinTransaction.  On every path the holder ends as it began, and the
   * calls issued and the outcome are those `Run` gives.
   */
  method InvokeWithinTransaction(aspect: Aspect, ctx: ThreadContext, inv: Invocation) returns (r: Outcome<nat>)
    modifies ctx
    decreases inv, 5
    ensures ctx.current == old(ctx.current)
    ensures var t := Run(aspect, inv, old(ctx.CurrentJoinpoint()));
            ctx.log == old(ctx.log) + t.events && r == t.outcome
  {
    ghost var outer := ctx.CurrentJoinpoint();
    RunSteps(aspect, inv, outer);
    var attr := aspect.attributeSource(inv.javaMethod, inv.targetClass);
    var resolved := DetermineTransactionManager(aspect, attr);
    if resolved.Thrown? {
      return Thrown(resolved.ex);
    }
    var tm := resolved.value;
    var joinpoint := MethodIdentification(aspect, inv.javaMethod, inv.targetClass);
    if attr.None? || tm.None? || !tm.value.callbackPreferring {
      r := InvokeStandard(aspect, ctx, inv.body, tm, attr, joinpoint);
    } else {
      r := InvokeWithCallback(aspect, ctx, inv.body, tm.value, attr.value, joinpoint);
    }
  }

  /** Run as the branches the method takes. */
  lemma RunSteps(aspect: Aspect, inv: Invocation, outer: Option<string>)
    ensures var attr := aspect.attributeSource(inv.javaMethod, inv.targetClass);
            var resolved := DetermineTransactionManager(aspect, attr);
            var joinpoint := MethodIdentification(aspect, inv.javaMethod, inv.targetClass);
            Run(aspect, inv, outer)
            == if resolved.Thrown? then Trace([], Thrown(resolved.ex))
               else if attr.None? || resolved.value.None? || !resolved.value.value.callbackPreferring
               then StandardRun(aspect, inv.body, resolved.value, NamedAttribute(attr, joinpoint), joinpoint, outer)
               else CallbackRun(aspect, inv.body, resolved.value.value, attr.value, joinpoint, outer)
  {
  }

  method InvokeStandard(aspect: Aspect, ctx: ThreadContext, body: Body, tm: Option<TransactionManager>,
                        attr: Option<TransactionAttribute>, joinpoint: string) returns (r: Outcome<nat>)
    modifies ctx
    decreases body, 4
    ensures ctx.current == old(ctx.current)
    ensures var t := StandardRun(aspect, body, tm, NamedAttribute(attr, joinpoint), joinpoint, old(ctx.CurrentJoinpoint()));
            ctx.log == old(ctx.log) + t.events && r == t.outcome
  {
    ghost var named := NamedAttribute(attr, joinpoint);
    ghost var outer := ctx.CurrentJoinpoint();
    ghost var log0 := ctx.log;
    var created := CreateTransactionIfNecessary(ctx, tm, attr, joinpoint);
    if created.Thrown? {
      return Thrown(created.ex);
    }
    var txInfo := created.value;
    ghost var status := Begin(tm, named).value;
    assert JoinpointOf(txInfo.oldTransactionInfo) == outer;
    ghost var log1 := ctx.log;
    r := ProceedAndComplete(aspect, ctx, body, txInfo);
    assert txInfo.transactionStatus == status && JoinpointOf(txInfo.oldTransactionInfo) == outer;
    ghost var tail := StandardTail(aspect, body, tm, named, status, joinpoint, outer);
    assert ctx.log == log1 + tail.events && r == tail.outcome;
    assert ctx.log == log0 + (BeginEvents(tm, named) + tail.events);
    StandardRunSteps(aspect, body, tm, named, joinpoint, outer);
  }

  /** StandardRun as the steps the method takes: begin, then the tail once the frame is bound. */
  lemma StandardRunSteps(aspect: Aspect, body: Body, tm: Option<TransactionManager>, attr: Option<TransactionAttribute>,
                         joinpoint: string, outer: Option<string>)
    ensures Begin(tm, attr).Thrown? ==>
              StandardRun(aspect, body, tm, attr, joinpoint, outer) == Trace(BeginEvents(tm, attr), Thrown(Begin(tm, attr).ex))
    ensures Begin(tm, attr).Normal? ==>
              var tail := StandardTail(aspect, body, tm, attr, Begin(tm, attr).value, joinpoint, outer);
              StandardRun(aspect, body, tm, attr, joinpoint, outer) == Trace(BeginEvents(tm, attr) + tail.events, tail.outcome)
  {
  }

  /** StandardTail as the steps the method takes: proceed, run the target, then complete. */
  lemma StandardTailSteps(aspect: Aspect, body: Body, tm: Option<TransactionManager>, attr: Option<TransactionAttribute>,
                          status: Option<TransactionStatus>, joinpoint: string, outer: Option<string>)
    ensures var t := RunBody(aspect, body, status, joinpoint);
            var c := StandardCompletion(tm, attr, status, t.outcome, joinpoint, outer);
            StandardTail(aspect, body, tm, attr, status, joinpoint, outer)
            == Trace([Proceed(joinpoint)] + t.events + c.events, c.outcome)
  {
  }

  /** The standard path once the frame is bound: proceed, then complete and restore. */
  method ProceedAndComplete(aspect: Aspect, ctx: ThreadContext, body: Body, txInfo: TransactionInfo) returns (r: Outcome<nat>)
    requires ctx.current == txInfo
    modifies ctx
    decreases body, 3
    ensures ctx.current == txInfo.oldTransactionInfo
    ensures var t := StandardTail(aspect, body, txInfo.transactionManager, txInfo.transactionAttribute,
                                  txInfo.transactionStatus, txInfo.joinpointIdentification,
                                  JoinpointOf(txInfo.oldTransactionInfo));
            ctx.log == old(ctx.log) + t.events && r == t.outcome
  {
    ghost var log0 := ctx.log;
    ctx.log := ctx.log + [Proceed(txInfo.joinpointIdentification)];
    ghost var log1 := ctx.log;
    var retVal := ProceedWithInvocation(aspect, ctx, body, txInfo);
    ghost var t := RunBody(aspect, body, txInfo.transactionStatus, txInfo.joinpointIdentification);
    ghost var log2 := ctx.log;
    r := CompleteAndCleanup(ctx, txInfo, retVal);
    ghost var c := StandardCompletion(txInfo.transactionManager, txInfo.transactionAttribute, txInfo.transactionStatus,
                                      t.outcome, txInfo.joinpointIdentification, JoinpointOf(txInfo.oldTransactionInfo));
    assert ctx.log == log0 + ([Proceed(txInfo.joinpointIdentification)] + t.events + c.events);
    StandardTailSteps(aspect, body, txInfo.transactionManager, txInfo.transactionAttribute, txInfo.transactionStatus,
                      txInfo.joinpointIdentification, JoinpointOf(txInfo.oldTransactionInfo));
  }

  function JoinpointOf(frame: TransactionInfo?): Option<string>
  {
    if frame == null then None else Some(frame.joinpointIdentification)
  }

  /**
   * The standard path after the target ran: on a throwable, complete while the frame
   * is still bound, then restore; on a return, restore first and then commit.
   */
  method CompleteAndCleanup(ctx: ThreadContext, txInfo: TransactionInfo, retVal: Outcome<nat>) returns (r: Outcome<nat>)
    requires ctx.current == txInfo
    modifies ctx
    ensures ctx.current == txInfo.oldTransactionInfo
    ensures var c := StandardCompletion(txInfo.transactionManager, txInfo.transactionAttribute, txInfo.transactionStatus,
                                        retVal, txInfo.joinpointIdentification, JoinpointOf(txInfo.oldTransactionInfo));
            ctx.log == old(ctx.log) + c.events && r == c.outcome
  {
    if retVal.Thrown? {
      var failure := CompleteTransactionAfterThrowing(ctx, txInfo, retVal.ex);
      CleanupTransactionInfo(ctx, txInfo);
      r := Thrown(if failure.Some? then failure.value else retVal.ex);
    } else {
      CleanupTransactionInfo(ctx, txInfo);
      var failure := CommitTransactionAfterReturning(ctx, txInfo);
      r := if failure.Some? then Thrown(failure.value) else retVal;
    }
  }

  /** The callback-preferring branch, with the manager's `execute` unfolded around the callback. */
  method InvokeWithCallback(aspect: Aspect, ctx: ThreadContext, body: Body, tm: TransactionManager,
                            attr: TransactionAttribute, joinpoint: string) returns (r: Outcome<nat>)
    modifies ctx
    decreases body, 4
    ensures ctx.current == old(ctx.current)
    ensures var t := CallbackRun(aspect, body, tm, attr, joinpoint, old(ctx.CurrentJoinpoint()));
            ctx.log == old(ctx.log) + t.events && r == t.outcome
  {
    // execute(txAttr, callback): the manager opens its transaction
    ctx.log := ctx.log + [Execute(tm, attr.name)];
    var begun := tm.begin(attr);
    if begun.Thrown? {
      return Thrown(begun.ex);
    }
    var status := begun.value;
    var callback := DoInTransaction(aspect, ctx, body, tm, attr, joinpoint, status);
    // the manager completes its transaction
    var executed := ExecuteCompletion(tm, status, callback, ctx.CurrentJoinpoint());
    ctx.log := ctx.log + executed.events;
    r := Unwrap(executed.result);
  }

  /** The TransactionCallback's doInTransaction: bind a frame, proceed, classify the outcome, restore. */
  method DoInTransaction(aspect: Aspect, ctx: ThreadContext, body: Body, tm: TransactionManager,
                         attr: TransactionAttribute, joinpoint: string, status: TransactionStatus)
    returns (callback: CallbackOutcome)
    modifies ctx
    decreases body, 3
    ensures ctx.current == old(ctx.current)
    ensures var t := RunBody(aspect, body, Some(status), joinpoint);
            ctx.log == old(ctx.log) + [Proceed(joinpoint)] + t.events && callback == DoInTransactionOutcome(attr, t.outcome)
  {
    var txInfo := PrepareTransactionInfo(ctx, Some(tm), Some(attr), joinpoint, Some(status));
    ctx.log := ctx.log + [Proceed(joinpoint)];
    var proceeded := ProceedWithInvocation(aspect, ctx, body, txInfo);
    callback := DoInTransactionOutcome(attr, proceeded);
    CleanupTransactionInfo(ctx, txInfo);
  }

  /** The target, run while `frame` is bound; nested intercepted calls leave `frame` bound again. */
  method ProceedWithInvocation(aspect: Aspect, ctx: ThreadContext, body: Body, frame: TransactionInfo)
    returns (r: Outcome<nat>)
    requires ctx.current == frame
    modifies ctx
    decreases body, 2
    ensures ctx.current == frame
    ensures var t := RunBody(aspect, body, frame.transactionStatus, frame.joinpointIdentification);
            ctx.log == old(ctx.log) + t.events && r == t.outcome
  {
    match body
    case Return(v) =>
      r := Normal(v);
    case Throw(ex) =>
      r := Thrown(ex);
    case QueryStatus(_) =>
      r := QueryThenProceed(aspect, ctx, body, frame);
    case Invoke(_, _) =>
      r := InvokeThenProceed(aspect, ctx, body, frame);
  }

  /** The target asks for currentTransactionStatus, then goes on. */
  method QueryThenProceed(aspect: Aspect, ctx: ThreadContext, body: Body, frame: TransactionInfo)
    returns (r: Outcome<nat>)
    requires body.QueryStatus? && ctx.current == frame
    modifies ctx
    decreases body, 1
    ensures ctx.current == frame
    ensures var t := RunBody(aspect, body, frame.transactionStatus, frame.joinpointIdentification);
            ctx.log == old(ctx.log) + t.events && r == t.outcome
  {
    var answer := ctx.CurrentTransactionStatus();
    ctx.log := ctx.log + [StatusQueried(answer)];
    r := ProceedWithInvocation(aspect, ctx, body.rest, frame);
  }

  /** The target calls another intercepted method, then goes on. */
  method InvokeThenProceed(aspect: Aspect, ctx: ThreadContext, body: Body, frame: TransactionInfo)
    returns (r: Outcome<nat>)
    requires body.Invoke? && ctx.current == frame
    modifies ctx
    decreases body, 1
    ensures ctx.current == frame
    ensures var t := RunBody(aspect, body, frame.transactionStatus, frame.joinpointIdentification);
            ctx.log == old(ctx.log) + t.events && r == t.outcome
  {
    var _ := InvokeWithinTransaction(aspect, ctx, body.callee);
    r := ProceedWithInvocation(aspect, ctx, body.rest, frame);
  }
}
