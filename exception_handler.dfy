/**
 * spring-webmvc's ExceptionHandlerExceptionResolver: finding the `@ExceptionHandler`
 * method for an exception (the controller's own class first, then the
 * `@ControllerAdvice` beans in order), caching one method resolver per bean type,
 * shaping the handler's outcome into a ModelAndView, and installing the default
 * argument resolvers and return-value handlers.
 *
 * Class introspection (ExceptionHandlerMethodResolver's scan of a bean type) and the
 * handler method's reflective invocation are parameters.
 */
module ExceptionHandler {
  import opened Wrappers

  datatype RaisedException = RaisedException(className: string)

  /** The method that raised the exception: its bean and the bean's type. */
  datatype HandlerMethod = HandlerMethod(bean: string, beanType: string)

  datatype ControllerAdviceBean = ControllerAdviceBean(beanName: string, beanType: string)

  /** An ExceptionHandlerMethodResolver: the `@ExceptionHandler` methods of one bean type. */
  datatype MethodResolver = MethodResolver(beanType: string)

  /**
   * What introspection of a bean type finds: the handler method chosen for an
   * exception, if any, and whether the type declares any exception mappings.
   */
  datatype Introspection = Introspection(
    resolveMethod: (string, RaisedException) -> Option<string>,
    hasExceptionMappings: string -> bool)

  function ResolveMethod(intro: Introspection, resolver: MethodResolver, ex: RaisedException): Option<string>
  {
    intro.resolveMethod(resolver.beanType, ex)
  }

  /** A ServletInvocableHandlerMethod: a bean and the method to call on it. */
  datatype InvocableMethod = InvocableMethod(bean: string, handler: string)

  /** One entry of the advice cache, a LinkedHashMap from advice bean to its resolver. */
  datatype AdviceEntry = AdviceEntry(bean: ControllerAdviceBean, resolver: MethodResolver)

  // ---------------------------------------------------------------- advice cache

  predicate HasKey(entries: seq<AdviceEntry>, bean: ControllerAdviceBean)
  {
    exists i :: 0 <= i < |entries| && entries[i].bean == bean
  }

  predicate DistinctKeys(entries: seq<AdviceEntry>)
  {
    forall i, j :: 0 <= i < j < |entries| ==> entries[i].bean != entries[j].bean
  }

  /** LinkedHashMap.put: a new key goes to the end, an existing key keeps its place. */
  function Put(entries: seq<AdviceEntry>, bean: ControllerAdviceBean, resolver: MethodResolver): (r: seq<AdviceEntry>)
    ensures !HasKey(entries, bean) ==> r == entries + [AdviceEntry(bean, resolver)]
    ensures HasKey(entries, bean) ==> |r| == |entries|
    ensures forall e :: e in r ==> e == AdviceEntry(bean, resolver) || e in entries
    ensures DistinctKeys(entries) ==> DistinctKeys(r)
    ensures DistinctKeys(entries) ==> forall i :: 0 <= i < |entries| ==> r[i] == (if entries[i].bean == bean then AdviceEntry(bean, resolver) else entries[i])
  {
    if entries == [] then [AdviceEntry(bean, resolver)]
    else if entries[0].bean == bean then [AdviceEntry(bean, resolver)] + entries[1..]
    else [entries[0]] + Put(entries[1..], bean, resolver)
  }

  /** The loop of initExceptionHandlerAdviceCache over the sorted advice beans. */
  function AdviceFrom(cache: seq<AdviceEntry>, beans: seq<ControllerAdviceBean>, intro: Introspection): seq<AdviceEntry>
  {
    if beans == [] then cache
    else
      var prev := AdviceFrom(cache, beans[..|beans| - 1], intro);
      var bean := beans[|beans| - 1];
      if intro.hasExceptionMappings(bean.beanType) then Put(prev, bean, MethodResolver(bean.beanType)) else prev
  }

  /** The advice beans that declare exception mappings, in order, each with its resolver. */
  function MappedAdvice(beans: seq<ControllerAdviceBean>, intro: Introspection): seq<AdviceEntry>
  {
    if beans == [] then []
    else
      var prev := MappedAdvice(beans[..|beans| - 1], intro);
      var bean := beans[|beans| - 1];
      if intro.hasExceptionMappings(bean.beanType) then prev + [AdviceEntry(bean, MethodResolver(bean.beanType))] else prev
  }

  predicate Distinct(beans: seq<ControllerAdviceBean>)
  {
    forall i, j :: 0 <= i < j < |beans| ==> beans[i] != beans[j]
  }

  /** The cache only holds beans with exception mappings, each with the resolver of its own type. */
  predicate WellFormedAdvice(cache: seq<AdviceEntry>, intro: Introspection)
  {
    forall e :: e in cache ==> intro.hasExceptionMappings(e.bean.beanType) && e.resolver == MethodResolver(e.bean.beanType)
  }

  lemma {:induction false} MappedAdviceKeys(beans: seq<ControllerAdviceBean>, intro: Introspection, bean: ControllerAdviceBean)
    requires HasKey(MappedAdvice(beans, intro), bean)
    ensures bean in beans
  {
    if beans != [] {
      var prev := MappedAdvice(beans[..|beans| - 1], intro);
      var last := beans[|beans| - 1];
      var k :| 0 <= k < |MappedAdvice(beans, intro)| && MappedAdvice(beans, intro)[k].bean == bean;
      if k < |prev| {
        assert prev[k].bean == bean;
        MappedAdviceKeys(beans[..|beans| - 1], intro, bean);
      }
    }
  }

  /**
   * Filled from an empty cache with the distinct beans the context lists, the advice
   * cache holds exactly the beans that declare exception mappings, in their order.
   */
  lemma {:induction false} AdviceCacheFromEmpty(beans: seq<ControllerAdviceBean>, intro: Introspection)
    requires Distinct(beans)
    ensures AdviceFrom([], beans, intro) == MappedAdvice(beans, intro)
  {
    if beans != [] {
      var init := beans[..|beans| - 1];
      var last := beans[|beans| - 1];
      AdviceCacheFromEmpty(init, intro);
      if intro.hasExceptionMappings(last.beanType) && HasKey(MappedAdvice(init, intro), last) {
        MappedAdviceKeys(init, intro, last);
        assert false;
      }
    }
  }

  /** The cache keeps holding only beans with mappings, whatever was in it before. */
  lemma {:induction false} AdviceFromWellFormed(cache: seq<AdviceEntry>, beans: seq<ControllerAdviceBean>, intro: Introspection)
    requires WellFormedAdvice(cache, intro)
    ensures WellFormedAdvice(AdviceFrom(cache, beans, intro), intro)
  {
    if beans != [] {
      AdviceFromWellFormed(cache, beans[..|beans| - 1], intro);
    }
  }

  // ---------------------------------------------------------------- handler lookup

  /** The first advice entry whose resolver finds a method for the exception. */
  function FirstAdviceMatch(advice: seq<AdviceEntry>, ex: RaisedException, intro: Introspection): (r: Option<InvocableMethod>)
  {
    if advice == [] then None
    else
      var m := ResolveMethod(intro, advice[0].resolver, ex);
      if m.Some? then Some(InvocableMethod(advice[0].bean.beanName, m.value))
      else FirstAdviceMatch(advice[1..], ex, intro)
  }

  /** getExceptionHandlerMethod, apart from the resolver cache. */
  function FindExceptionHandlerMethod(handlerMethod: Option<HandlerMethod>, ex: RaisedException,
                                      advice: seq<AdviceEntry>, intro: Introspection): Option<InvocableMethod>
  {
    if handlerMethod.Some? && intro.resolveMethod(handlerMethod.value.beanType, ex).Some? then
      Some(InvocableMethod(handlerMethod.value.bean, intro.resolveMethod(handlerMethod.value.beanType, ex).value))
    else FirstAdviceMatch(advice, ex, intro)
  }

  /**
   * Advice is tried in order and the first match wins: the result is the entry at
   * some index k whose resolver matches, no earlier entry matches, and there is no
   * result only when no entry matches.
   */
  lemma {:induction false} FirstAdviceMatchIsFirst(advice: seq<AdviceEntry>, ex: RaisedException, intro: Introspection)
    ensures var r := FirstAdviceMatch(advice, ex, intro);
            (r.None? <==> forall i :: 0 <= i < |advice| ==> ResolveMethod(intro, advice[i].resolver, ex).None?)
            && (r.Some? ==> exists k :: (0 <= k < |advice|
                  && ResolveMethod(intro, advice[k].resolver, ex).Some?
                  && r.value == InvocableMethod(advice[k].bean.beanName, ResolveMethod(intro, advice[k].resolver, ex).value)
                  && forall i :: 0 <= i < k ==> ResolveMethod(intro, advice[i].resolver, ex).None?))
  {
    if advice != [] && ResolveMethod(intro, advice[0].resolver, ex).None? {
      FirstAdviceMatchIsFirst(advice[1..], ex, intro);
      var r := FirstAdviceMatch(advice, ex, intro);
      if r.Some? {
        var k :| 0 <= k < |advice[1..]|
                 && ResolveMethod(intro, advice[1..][k].resolver, ex).Some?
                 && r.value == InvocableMethod(advice[1..][k].bean.beanName, ResolveMethod(intro, advice[1..][k].resolver, ex).value)
                 && forall i :: 0 <= i < k ==> ResolveMethod(intro, advice[1..][i].resolver, ex).None?;
        assert forall i :: 1 <= i < k + 1 ==> advice[i] == advice[1..][i - 1];
      } else {
        assert forall i :: 1 <= i < |advice| ==> advice[i] == advice[1..][i - 1];
      }
    }
  }

  /**
   * The controller's own handler method is preferred over any advice; without a
   * handler method, or without a match in its class, the advice decides.
   */
  lemma ControllerBeforeAdvice(handlerMethod: Option<HandlerMethod>, ex: RaisedException,
                               advice: seq<AdviceEntry>, intro: Introspection)
    ensures var r := FindExceptionHandlerMethod(handlerMethod, ex, advice, intro);
            (handlerMethod.Some? && intro.resolveMethod(handlerMethod.value.beanType, ex).Some?
             ==> r == Some(InvocableMethod(handlerMethod.value.bean,
                                           intro.resolveMethod(handlerMethod.value.beanType, ex).value)))
            && (handlerMethod.Some? && intro.resolveMethod(handlerMethod.value.beanType, ex).None?
                ==> r == FirstAdviceMatch(advice, ex, intro))
            && (handlerMethod.None? ==> r == FirstAdviceMatch(advice, ex, intro))
  {
  }

  // ---------------------------------------------------------------- result shaping

  /** The view a ModelAndViewContainer holds: nothing, a view name (a reference) or a View object. */
  datatype ContainerView = NoView | ViewName(name: string) | ViewObject(id: nat)

  /** The ModelAndViewContainer after the handler method ran. */
  datatype Container = Container(requestHandled: bool, model: map<string, string>, view: ContainerView)

  datatype ModelAndView = ModelAndView(model: map<string, string>, viewName: Option<string>, view: Option<nat>)

  const EMPTY_MODEL_AND_VIEW := ModelAndView(map[], None, None)

  /** The outcome of invokeAndHandle. */
  datatype Invocation = Threw(ex: RaisedException) | Completed(container: Container)

  /** The result ModelAndView of a handler method that completed. */
  function ShapeModelAndView(c: Container): (mav: ModelAndView)
    ensures c.requestHandled ==> mav == EMPTY_MODEL_AND_VIEW
    ensures !c.requestHandled ==> mav.model == c.model
    ensures !c.requestHandled && c.view.ViewName? ==> mav.viewName == Some(c.view.name) && mav.view == None
    ensures !c.requestHandled && c.view.ViewObject? ==> mav.view == Some(c.view.id) && mav.viewName == None
    ensures !c.requestHandled && c.view.NoView? ==> mav.viewName == None && mav.view == None
  {
    if c.requestHandled then EMPTY_MODEL_AND_VIEW
    else
      ModelAndView(c.model,
                   if c.view.ViewName? then Some(c.view.name) else None,
                   // the View object is copied only when the container holds no reference
                   if !c.view.ViewName? && c.view.ViewObject? then Some(c.view.id) else None)
  }

  /** doResolveHandlerMethodException once the handler method is known (or is missing). */
  function ResolveOutcome(found: Option<InvocableMethod>, invoke: InvocableMethod -> Invocation): Option<ModelAndView>
  {
    if found.None? then None
    else match invoke(found.value)
      case Threw(_) => None
      case Completed(c) => Some(ShapeModelAndView(c))
  }

  /** No handler method, or a handler method that throws, leaves the exception unresolved. */
  lemma UnresolvedCases(found: Option<InvocableMethod>, invoke: InvocableMethod -> Invocation)
    ensures ResolveOutcome(found, invoke).None? <==> found.None? || invoke(found.value).Threw?
  {
  }

  // ---------------------------------------------------------------- default resolvers and handlers

  datatype ArgumentResolver = ServletRequestResolver | ServletResponseResolver | CustomArgumentResolver(id: nat)

  datatype ReturnValueHandler =
    | ModelAndViewHandler
    | ModelMethodProcessor
    | ViewHandler
    | HttpEntityProcessor
    | ModelAttributeProcessor(annotationNotRequired: bool)
    | RequestResponseBodyProcessor
    | ViewNameHandler
    | MapProcessor
    | CustomReturnValueHandler(id: nat)

  const BUILT_IN_ARGUMENT_RESOLVERS := [ServletRequestResolver, ServletResponseResolver]

  const BUILT_IN_RETURN_VALUE_HANDLERS := [ModelAndViewHandler, ModelMethodProcessor, ViewHandler, HttpEntityProcessor,
                                           ModelAttributeProcessor(false), RequestResponseBodyProcessor,
                                           ViewNameHandler, MapProcessor]

  /** The catch-all handler that ends the default list. */
  const CATCH_ALL := ModelAttributeProcessor(true)

  class ExceptionHandlerExceptionResolver {
    const intro: Introspection
    var customArgumentResolvers: Option<seq<ArgumentResolver>>
    var argumentResolvers: Option<seq<ArgumentResolver>>
    var customReturnValueHandlers: Option<seq<ReturnValueHandler>>
    var returnValueHandlers: Option<seq<ReturnValueHandler>>
    /** The advice beans the application context holds, or None without a context. */
    var applicationContext: Option<seq<ControllerAdviceBean>>
    var exceptionHandlerCache: map<string, MethodResolver>
    var exceptionHandlerAdviceCache: seq<AdviceEntry>
    /** The bean types a resolver was created for, in order. */
    ghost var created: seq<string>

    /** Every cached resolver belongs to its key, and each was created once. */
    ghost predicate Valid()
      reads this
    {
      (forall t :: t in exceptionHandlerCache ==> exceptionHandlerCache[t] == MethodResolver(t))
      && (forall t :: t in exceptionHandlerCache <==> t in created)
      && (forall i, j :: 0 <= i < j < |created| ==> created[i] != created[j])
    }

    constructor (intro: Introspection)
      ensures this.intro == intro && Valid()
      ensures customArgumentResolvers.None? && argumentResolvers.None?
      ensures customReturnValueHandlers.None? && returnValueHandlers.None? && applicationContext.None?
      ensures exceptionHandlerCache == map[] && exceptionHandlerAdviceCache == []
    {
      this.intro := intro;
      customArgumentResolvers := None;
      argumentResolvers := None;
      customReturnValueHandlers := None;
      returnValueHandlers := None;
      applicationContext := None;
      exceptionHandlerCache := map[];
      exceptionHandlerAdviceCache := [];
      created := [];
    }

    method SetCustomArgumentResolvers(resolvers: Option<seq<ArgumentResolver>>)
      modifies this`customArgumentResolvers
      ensures customArgumentResolvers == resolvers
    {
      customArgumentResolvers := resolvers;
    }

    method SetCustomReturnValueHandlers(handlers: Option<seq<ReturnValueHandler>>)
      modifies this`customReturnValueHandlers
      ensures customReturnValueHandlers == handlers
    {
      customReturnValueHandlers := handlers;
    }

    method SetApplicationContext(adviceBeans: Option<seq<ControllerAdviceBean>>)
      modifies this`applicationContext
      ensures applicationContext == adviceBeans
    {
      applicationContext := adviceBeans;
    }

    /** getDefaultArgumentResolvers: the built-in resolvers, then the custom ones. */
    method GetDefaultArgumentResolvers() returns (resolvers: seq<ArgumentResolver>)
      ensures |resolvers| >= 2 && resolvers[..2] == BUILT_IN_ARGUMENT_RESOLVERS
      ensures resolvers[2..] == if customArgumentResolvers.Some? then customArgumentResolvers.value else []
    {
      resolvers := [];
      resolvers := resolvers + [ServletRequestResolver];
      resolvers := resolvers + [ServletResponseResolver];
      if customArgumentResolvers.Some? {
        resolvers := resolvers + customArgumentResolvers.value;
      }
    }

    /** getDefaultReturnValueHandlers: built-ins, then custom handlers, then the catch-all last. */
    method GetDefaultReturnValueHandlers() returns (handlers: seq<ReturnValueHandler>)
      ensures |handlers| >= |BUILT_IN_RETURN_VALUE_HANDLERS| + 1
      ensures handlers[..|BUILT_IN_RETURN_VALUE_HANDLERS|] == BUILT_IN_RETURN_VALUE_HANDLERS
      ensures handlers[|BUILT_IN_RETURN_VALUE_HANDLERS|..|handlers| - 1]
              == if customReturnValueHandlers.Some? then customReturnValueHandlers.value else []
      ensures handlers[|handlers| - 1] == CATCH_ALL
    {
      handlers := [];
      handlers := handlers + [ModelAndViewHandler];
      handlers := handlers + [ModelMethodProcessor];
      handlers := handlers + [ViewHandler];
      handlers := handlers + [HttpEntityProcessor];
      handlers := handlers + [ModelAttributeProcessor(false)];
      handlers := handlers + [RequestResponseBodyProcessor];
      handlers := handlers + [ViewNameHandler];
      handlers := handlers + [MapProcessor];
      if customReturnValueHandlers.Some? {
        handlers := handlers + customReturnValueHandlers.value;
      }
      handlers := handlers + [CATCH_ALL];
    }

    /** initExceptionHandlerAdviceCache: nothing without a context, else the sorted beans with mappings. */
    method InitExceptionHandlerAdviceCache(sortByOrder: seq<ControllerAdviceBean> -> seq<ControllerAdviceBean>)
      modifies this`exceptionHandlerAdviceCache
      ensures applicationContext.None? ==> exceptionHandlerAdviceCache == old(exceptionHandlerAdviceCache)
      ensures applicationContext.Some? ==>
                exceptionHandlerAdviceCache == AdviceFrom(old(exceptionHandlerAdviceCache), sortByOrder(applicationContext.value), intro)
    {
      if applicationContext.None? {
        return;
      }
      var beans := sortByOrder(applicationContext.value);
      var i := 0;
      while i < |beans|
        invariant 0 <= i <= |beans|
        invariant exceptionHandlerAdviceCache == AdviceFrom(old(exceptionHandlerAdviceCache), beans[..i], intro)
      {
        var bean := beans[i];
        assert beans[..i + 1][..i] == beans[..i];
        if intro.hasExceptionMappings(bean.beanType) {
          exceptionHandlerAdviceCache := Put(exceptionHandlerAdviceCache, bean, MethodResolver(bean.beanType));
        }
        i := i + 1;
      }
      assert beans[..i] == beans;
    }

    /** afterPropertiesSet: defaults only where nothing was configured, then the advice cache. */
    method AfterPropertiesSet(sortByOrder: seq<ControllerAdviceBean> -> seq<ControllerAdviceBean>)
      modifies this`argumentResolvers, this`returnValueHandlers, this`exceptionHandlerAdviceCache
      ensures old(argumentResolvers).Some? ==> argumentResolvers == old(argumentResolvers)
      ensures old(argumentResolvers).None? ==>
                argumentResolvers == Some(BUILT_IN_ARGUMENT_RESOLVERS
                                          + if customArgumentResolvers.Some? then customArgumentResolvers.value else [])
      ensures old(returnValueHandlers).Some? ==> returnValueHandlers == old(returnValueHandlers)
      ensures old(returnValueHandlers).None? ==>
                returnValueHandlers == Some(BUILT_IN_RETURN_VALUE_HANDLERS
                                            + (if customReturnValueHandlers.Some? then customReturnValueHandlers.value else [])
                                            + [CATCH_ALL])
      ensures applicationContext.None? ==> exceptionHandlerAdviceCache == old(exceptionHandlerAdviceCache)
      ensures applicationContext.Some? ==>
                exceptionHandlerAdviceCache == AdviceFrom(old(exceptionHandlerAdviceCache), sortByOrder(applicationContext.value), intro)
    {
      if argumentResolvers.None? {
        var resolvers := GetDefaultArgumentResolvers();
        assert resolvers == resolvers[..2] + resolvers[2..];
        argumentResolvers := Some(resolvers);
      }
      if returnValueHandlers.None? {
        var handlers := GetDefaultReturnValueHandlers();
        var n := |BUILT_IN_RETURN_VALUE_HANDLERS|;
        assert handlers == handlers[..n] + handlers[n..|handlers| - 1] + [handlers[|handlers| - 1]];
        returnValueHandlers := Some(handlers);
      }
      InitExceptionHandlerAdviceCache(sortByOrder);
    }

    /** The resolver of a bean type, created and cached on a miss. */
    method CachedResolver(beanType: string) returns (resolver: MethodResolver)
      requires Valid()
      modifies this`exceptionHandlerCache, this`created
      ensures Valid() && resolver == MethodResolver(beanType)
      ensures exceptionHandlerCache == old(exceptionHandlerCache)[beanType := resolver]
      ensures created == old(created) + if beanType in old(exceptionHandlerCache) then [] else [beanType]
    {
      if beanType in exceptionHandlerCache {
        resolver := exceptionHandlerCache[beanType];
      } else {
        resolver := MethodResolver(beanType);
        exceptionHandlerCache := exceptionHandlerCache[beanType := resolver];
        created := created + [beanType];
      }
    }

    /** getExceptionHandlerMethod: the controller's class first, then the advice beans in order. */
    method GetExceptionHandlerMethod(handlerMethod: Option<HandlerMethod>, ex: RaisedException)
      returns (r: Option<InvocableMethod>)
      requires Valid()
      modifies this`exceptionHandlerCache, this`created
      ensures Valid()
      ensures r == FindExceptionHandlerMethod(handlerMethod, ex, exceptionHandlerAdviceCache, intro)
      ensures handlerMethod.None? ==> exceptionHandlerCache == old(exceptionHandlerCache) && created == old(created)
      ensures handlerMethod.Some? ==>
                exceptionHandlerCache == old(exceptionHandlerCache)[handlerMethod.value.beanType := MethodResolver(handlerMethod.value.beanType)]
                && created == old(created)
                              + if handlerMethod.value.beanType in old(exceptionHandlerCache) then [] else [handlerMethod.value.beanType]
    {
      if handlerMethod.Some? {
        var resolver := CachedResolver(handlerMethod.value.beanType);
        var found := ResolveMethod(intro, resolver, ex);
        if found.Some? {
          return Some(InvocableMethod(handlerMethod.value.bean, found.value));
        }
      }
      var i := 0;
      while i < |exceptionHandlerAdviceCache|
        invariant 0 <= i <= |exceptionHandlerAdviceCache|
        invariant FirstAdviceMatch(exceptionHandlerAdviceCache, ex, intro) == FirstAdviceMatch(exceptionHandlerAdviceCache[i..], ex, intro)
      {
        var entry := exceptionHandlerAdviceCache[i];
        var found := ResolveMethod(intro, entry.resolver, ex);
        if found.Some? {
          return Some(InvocableMethod(entry.bean.beanName, found.value));
        }
        assert exceptionHandlerAdviceCache[i..][1..] == exceptionHandlerAdviceCache[i + 1..];
        i := i + 1;
      }
      return None;
    }

    /** doResolveHandlerMethodException: find the handler method, invoke it, shape the result. */
    method DoResolveHandlerMethodException(handlerMethod: Option<HandlerMethod>, ex: RaisedException,
                                           invoke: InvocableMethod -> Invocation)
      returns (mav: Option<ModelAndView>)
      requires Valid()
      modifies this`exceptionHandlerCache, this`created
      ensures Valid()
      ensures mav == ResolveOutcome(FindExceptionHandlerMethod(handlerMethod, ex, exceptionHandlerAdviceCache, intro), invoke)
      ensures handlerMethod.None? ==> exceptionHandlerCache == old(exceptionHandlerCache)
      ensures handlerMethod.Some? ==>
                exceptionHandlerCache == old(exceptionHandlerCache)[handlerMethod.value.beanType := MethodResolver(handlerMethod.value.beanType)]
    {
      var exceptionHandlerMethod := GetExceptionHandlerMethod(handlerMethod, ex);
      if exceptionHandlerMethod.None? {
        return None;
      }
      var outcome := invoke(exceptionHandlerMethod.value);
      if outcome.Threw? {
        return None;
      }
      var container := outcome.container;
      if container.requestHandled {
        return Some(EMPTY_MODEL_AND_VIEW);
      }
      var result := ModelAndView(container.model, None, None);
      result := result.(viewName := if container.view.ViewName? then Some(container.view.name) else None);
      if !container.view.ViewName? {
        result := result.(view := if container.view.ViewObject? then Some(container.view.id) else None);
      }
      return Some(result);
    }
  }

  /** A second lookup for the same controller type creates no new resolver. */
  method ResolverCreatedOncePerType(r: ExceptionHandlerExceptionResolver, handlerMethod: HandlerMethod, ex1: RaisedException, ex2: RaisedException)
    requires r.Valid()
    modifies r`exceptionHandlerCache, r`created
    ensures r.Valid()
    ensures |r.created| <= |old(r.created)| + 1
    ensures handlerMethod.beanType in r.exceptionHandlerCache
  {
    var first := r.GetExceptionHandlerMethod(Some(handlerMethod), ex1);
    ghost var afterFirst := r.created;
    var second := r.GetExceptionHandlerMethod(Some(handlerMethod), ex2);
    assert r.created == afterFirst;
  }
}
