/**
 * Interceptor bookkeeping and handler-chain assembly of spring-webmvc's
 * AbstractHandlerMapping.
 *
 * Configured interceptor objects are sorted, in order, into the mapped list
 * (path-restricted) and the adapted list (always applied).  A request's handler,
 * or the default handler, is wrapped in a HandlerExecutionChain that receives all
 * adapted interceptors and then the mapped ones whose patterns match the lookup
 * path.  Path matching is the uninterpreted function `matches`.
 */
module HandlerMapping {
  import opened Wrappers

  // ---------------------------------------------------------------- interceptors

  /** A HandlerInterceptor: one given directly, or a WebRequestInterceptor wrapped in an adapter. */
  datatype HandlerInterceptor =
    | Interceptor(id: nat)
    | WebRequestAdapter(webRequestInterceptor: nat)

  /** A MappedInterceptor: path patterns and the HandlerInterceptor they guard. */
  datatype MappedInterceptor = MappedInterceptor(includePatterns: seq<string>, interceptor: HandlerInterceptor)

  /** An object configured through setInterceptors. */
  datatype Configured =
    | AsHandlerInterceptor(handlerInterceptor: HandlerInterceptor)
    | AsWebRequestInterceptor(webRequestInterceptor: nat)
    | AsMappedInterceptor(mapped: MappedInterceptor)
    | OtherObject(className: string)

  /** The IllegalArgumentExceptions of initialization. */
  datatype InitError =
    | NullEntry(index: nat)
    | UnsupportedType(className: string)

  const MAPPED_INTERCEPTOR_CLASS := "org.springframework.web.servlet.handler.MappedInterceptor"

  function ClassName(x: Configured): string
  {
    match x
    case AsMappedInterceptor(_) => MAPPED_INTERCEPTOR_CLASS
    case OtherObject(c) => c
    case _ => "org.springframework.web.servlet.HandlerInterceptor"
  }

  /** adaptInterceptor: HandlerInterceptors as they are, WebRequestInterceptors wrapped, anything else refused. */
  function AdaptInterceptor(x: Configured): (r: Result<HandlerInterceptor, InitError>)
    ensures r.Success? <==> x.AsHandlerInterceptor? || x.AsWebRequestInterceptor?
    ensures x.AsHandlerInterceptor? ==> r.value == x.handlerInterceptor
    ensures x.AsWebRequestInterceptor? ==> r.value == WebRequestAdapter(x.webRequestInterceptor)
    ensures r.Failure? ==> r.error == UnsupportedType(ClassName(x))
  {
    match x
    case AsHandlerInterceptor(h) => Success(h)
    case AsWebRequestInterceptor(w) => Success(WebRequestAdapter(w))
    case _ => Failure(UnsupportedType(ClassName(x)))
  }

  // ---------------------------------------------------------------- initInterceptors, as functions

  /** What initInterceptors appends to the two lists, and the exception that stopped it, if any. */
  datatype Partition = Partition(mapped: seq<MappedInterceptor>, adapted: seq<HandlerInterceptor>, error: Option<InitError>)

  /** The effect of the loop body on entry `i`. */
  function Step(p: Partition, entry: Option<Configured>, i: nat): Partition
  {
    if entry.None? then p.(error := Some(NullEntry(i)))
    else if entry.value.AsMappedInterceptor? then p.(mapped := p.mapped + [entry.value.mapped])
    else match AdaptInterceptor(entry.value)
      case Success(h) => p.(adapted := p.adapted + [h])
      case Failure(e) => p.(error := Some(e))
  }

  /** The loop of initInterceptors over `entries`, stopping at the first exception. */
  function Initialized(entries: seq<Option<Configured>>): Partition
  {
    if entries == [] then Partition([], [], None)
    else
      var p := Initialized(entries[..|entries| - 1]);
      if p.error.Some? then p else Step(p, entries[|entries| - 1], |entries| - 1)
  }

  /** An entry initInterceptors accepts. */
  predicate Supported(entry: Option<Configured>)
  {
    entry.Some? && !entry.value.OtherObject?
  }

  function ErrorAt(entry: Option<Configured>, i: nat): InitError
  {
    if entry.None? then NullEntry(i) else UnsupportedType(ClassName(entry.value))
  }

  /** The MappedInterceptor entries, in order. */
  function MappedOf(entries: seq<Option<Configured>>): seq<MappedInterceptor>
  {
    if entries == [] then []
    else if entries[0].Some? && entries[0].value.AsMappedInterceptor? then [entries[0].value.mapped] + MappedOf(entries[1..])
    else MappedOf(entries[1..])
  }

  /** The HandlerInterceptor and WebRequestInterceptor entries, in order, as HandlerInterceptors. */
  function AdaptedOf(entries: seq<Option<Configured>>): seq<HandlerInterceptor>
  {
    if entries == [] then []
    else if entries[0].Some? && AdaptInterceptor(entries[0].value).Success? then
      [AdaptInterceptor(entries[0].value).value] + AdaptedOf(entries[1..])
    else AdaptedOf(entries[1..])
  }

  lemma {:induction false} MappedOfAppend(a: seq<Option<Configured>>, b: seq<Option<Configured>>)
    ensures MappedOf(a + b) == MappedOf(a) + MappedOf(b)
  {
    if a == [] {
      assert a + b == b;
    } else {
      assert (a + b)[1..] == a[1..] + b;
      MappedOfAppend(a[1..], b);
    }
  }

  lemma {:induction false} AdaptedOfAppend(a: seq<Option<Configured>>, b: seq<Option<Configured>>)
    ensures AdaptedOf(a + b) == AdaptedOf(a) + AdaptedOf(b)
  {
    if a == [] {
      assert a + b == b;
    } else {
      assert (a + b)[1..] == a[1..] + b;
      AdaptedOfAppend(a[1..], b);
    }
  }

  /**
   * Initialization succeeds exactly when every entry is non-null and of a supported
   * type; it then sends each entry to exactly one of the two lists, keeping order.
   */
  lemma {:induction false} InitializedPartitions(entries: seq<Option<Configured>>)
    ensures Initialized(entries).error.None? <==> forall i :: 0 <= i < |entries| ==> Supported(entries[i])
    ensures Initialized(entries).error.None? ==>
      Initialized(entries).mapped == MappedOf(entries) && Initialized(entries).adapted == AdaptedOf(entries)
      && |Initialized(entries).mapped| + |Initialized(entries).adapted| == |entries|
  {
    if entries != [] {
      var n := |entries| - 1;
      var prefix := entries[..n];
      var last := entries[n];
      InitializedPartitions(prefix);
      var p := Initialized(prefix);
      assert Initialized(entries) == if p.error.Some? then p else Step(p, last, n);
      if p.error.Some? {
        var i :| 0 <= i < |prefix| && !Supported(prefix[i]);
        assert !Supported(entries[i]);
      } else {
        assert forall i :: 0 <= i < n ==> entries[i] == prefix[i];
        assert entries == prefix + [last];
        MappedOfAppend(prefix, [last]);
        AdaptedOfAppend(prefix, [last]);
        StepPartitions(p, last, n);
      }
    }
  }

  /** One entry of the loop, against the lists of that entry alone. */
  lemma StepPartitions(p: Partition, last: Option<Configured>, n: nat)
    requires p.error.None?
    ensures Step(p, last, n).error.None? <==> Supported(last)
    ensures Supported(last) ==>
      Step(p, last, n).mapped == p.mapped + MappedOf([last]) && Step(p, last, n).adapted == p.adapted + AdaptedOf([last])
      && |MappedOf([last])| + |AdaptedOf([last])| == 1
  {
    assert [last][1..] == [];
  }

  /** An exception at the first unsupported entry `i`: the lists hold what came before it. */
  lemma {:induction false} InitializedStopsAtFirstError(entries: seq<Option<Configured>>, i: nat)
    requires i < |entries| && !Supported(entries[i])
    requires forall j :: 0 <= j < i ==> Supported(entries[j])
    ensures Initialized(entries) == Partition(MappedOf(entries[..i]), AdaptedOf(entries[..i]), Some(ErrorAt(entries[i], i)))
  {
    var n := |entries| - 1;
    var prefix := entries[..n];
    if i == n {
      InitializedPartitions(prefix);
      assert prefix == entries[..i];
    } else {
      assert prefix[..i] == entries[..i];
      InitializedStopsAtFirstError(prefix, i);
    }
  }

  /** Once an exception is raised, later entries change nothing. */
  lemma {:induction false} ErrorIsFinal(entries: seq<Option<Configured>>, k: nat)
    requires k <= |entries| && Initialized(entries[..k]).error.Some?
    ensures Initialized(entries) == Initialized(entries[..k])
    decreases |entries| - k
  {
    if k < |entries| {
      assert entries[..k + 1][..k] == entries[..k];
      ErrorIsFinal(entries, k + 1);
    } else {
      assert entries[..k] == entries;
    }
  }

  /** The mapped interceptors that apply to `lookupPath`, in order, as their HandlerInterceptors. */
  function MatchingOf(mapped: seq<MappedInterceptor>, lookupPath: string, matches: (MappedInterceptor, string) -> bool)
    : seq<HandlerInterceptor>
  {
    if mapped == [] then []
    else
      var last := mapped[|mapped| - 1];
      MatchingOf(mapped[..|mapped| - 1], lookupPath, matches) + (if matches(last, lookupPath) then [last.interceptor] else [])
  }

  /** An interceptor is added for the path exactly when some mapped interceptor carrying it matches. */
  lemma {:induction false} MatchingOfMembers(mapped: seq<MappedInterceptor>, lookupPath: string,
                                             matches: (MappedInterceptor, string) -> bool, x: HandlerInterceptor)
    ensures x in MatchingOf(mapped, lookupPath, matches)
      <==> exists m :: m in mapped && matches(m, lookupPath) && m.interceptor == x
    ensures |MatchingOf(mapped, lookupPath, matches)| <= |mapped|
  {
    if mapped != [] {
      var n := |mapped| - 1;
      MatchingOfMembers(mapped[..n], lookupPath, matches, x);
      assert mapped == mapped[..n] + [mapped[n]];
      if x in MatchingOf(mapped, lookupPath, matches) && x !in MatchingOf(mapped[..n], lookupPath, matches) {
        assert matches(mapped[n], lookupPath) && mapped[n].interceptor == x;
      }
    }
  }

  /** When every mapped interceptor matches, all of them are added, in list order. */
  lemma {:induction false} AllMatching(mapped: seq<MappedInterceptor>, lookupPath: string,
                                       matches: (MappedInterceptor, string) -> bool)
    requires forall m :: m in mapped ==> matches(m, lookupPath)
    ensures MatchingOf(mapped, lookupPath, matches) == seq(|mapped|, i requires 0 <= i < |mapped| => mapped[i].interceptor)
  {
    if mapped != [] {
      var n := |mapped| - 1;
      assert forall m :: m in mapped[..n] ==> m in mapped;
      AllMatching(mapped[..n], lookupPath, matches);
      assert mapped[n] in mapped;
    }
  }

  // ---------------------------------------------------------------- handlers and chains

  /** What getHandlerInternal or the default handler can be: an object, a bean name, or a pre-built chain. */
  datatype Handler =
    | HandlerObject(id: nat)
    | BeanName(name: string)
    | ExistingChain(chain: HandlerExecutionChain)

  /** The failure of getBean for a handler bean name. */
  datatype LookupError = NoSuchBeanDefinition(name: string)

  class HandlerExecutionChain {
    const handler: Handler
    var interceptors: seq<HandlerInterceptor>

    constructor (handler: Handler)
      ensures this.handler == handler && interceptors == []
    {
      this.handler := handler;
      interceptors := [];
    }

    /** addInterceptors: a null array adds nothing. */
    method AddInterceptors(xs: Option<seq<HandlerInterceptor>>)
      modifies this`interceptors
      ensures interceptors == old(interceptors) + (if xs.Some? then xs.value else [])
    {
      if xs.Some? {
        interceptors := interceptors + xs.value;
      }
    }

    method AddInterceptor(x: HandlerInterceptor)
      modifies this`interceptors
      ensures interceptors == old(interceptors) + [x]
    {
      interceptors := interceptors + [x];
    }
  }

  /**
   * The handler getHandler goes on with: the looked-up one, else the default one,
   * else none; a bean name is replaced by the bean it names.
   */
  function ResolveHandler(internal: Option<Handler>, defaultHandler: Option<Handler>, beans: map<string, Handler>)
    : (r: Result<Option<Handler>, LookupError>)
    // null only when neither the lookup nor the default gives a handler
    ensures r.Success? && r.value.None? <==> internal.None? && defaultHandler.None?
    // the default is consulted only when the lookup gives null
    ensures internal.Some? && !internal.value.BeanName? ==> r == Success(internal)
    ensures internal.None? && defaultHandler.Some? && !defaultHandler.value.BeanName? ==> r == Success(defaultHandler)
    // a bean name fails exactly when no bean has that name
    ensures r.Failure? ==> var h := if internal.Some? then internal.value else defaultHandler.value;
                           h.BeanName? && h.name !in beans && r.error == NoSuchBeanDefinition(h.name)
    ensures r.Success? && r.value.Some? ==> var h := if internal.Some? then internal.value else defaultHandler.value;
                           (h.BeanName? ==> h.name in beans && r.value.value == beans[h.name])
                           && (!h.BeanName? ==> r.value.value == h)
  {
    var handler := if internal.Some? then internal else defaultHandler;
    if handler.None? then Success(None)
    else if handler.value.BeanName? then
      if handler.value.name in beans then Success(Some(beans[handler.value.name]))
      else Failure(NoSuchBeanDefinition(handler.value.name))
    else Success(handler)
  }

  /** The chain a resolved handler already is, if any: the only object getHandler changes. */
  function ChainOf(h: Result<Option<Handler>, LookupError>): set<HandlerExecutionChain>
  {
    if h.Success? && h.value.Some? && h.value.value.ExistingChain? then {h.value.value.chain} else {}
  }

  // ---------------------------------------------------------------- the handler mapping

  class AbstractHandlerMapping {
    var defaultHandler: Option<Handler>
    var interceptors: seq<Option<Configured>>
    var adaptedInterceptors: seq<HandlerInterceptor>
    var mappedInterceptors: seq<MappedInterceptor>

    constructor ()
      ensures defaultHandler == None && interceptors == [] && adaptedInterceptors == [] && mappedInterceptors == []
    {
      defaultHandler := None;
      interceptors := [];
      adaptedInterceptors := [];
      mappedInterceptors := [];
    }

    method SetDefaultHandler(h: Option<Handler>)
      modifies this`defaultHandler
      ensures defaultHandler == h
    {
      defaultHandler := h;
    }

    /** setInterceptors adds to what was configured before instead of replacing it. */
    method SetInterceptors(xs: seq<Option<Configured>>)
      modifies this`interceptors
      ensures interceptors == old(interceptors) + xs
    {
      interceptors := interceptors + xs;
    }

    /**
     * initApplicationContext: the detected MappedInterceptor beans are added first,
     * then the configured entries are sorted into the two lists.
     */
    method InitApplicationContext(detected: seq<MappedInterceptor>) returns (error: Option<InitError>)
      modifies this`mappedInterceptors, this`adaptedInterceptors
      ensures var p := Initialized(interceptors);
              mappedInterceptors == old(mappedInterceptors) + detected + p.mapped
              && adaptedInterceptors == old(adaptedInterceptors) + p.adapted && error == p.error
    {
      mappedInterceptors := mappedInterceptors + detected;
      error := InitInterceptors();
    }

    /** initInterceptors: the index loop over the configured entries, stopping at the first exception. */
    method InitInterceptors() returns (error: Option<InitError>)
      modifies this`mappedInterceptors, this`adaptedInterceptors
      ensures var p := Initialized(interceptors);
              mappedInterceptors == old(mappedInterceptors) + p.mapped
              && adaptedInterceptors == old(adaptedInterceptors) + p.adapted && error == p.error
    {
      var i := 0;
      while i < |interceptors|
        invariant 0 <= i <= |interceptors|
        invariant Initialized(interceptors[..i]).error.None?
        invariant mappedInterceptors == old(mappedInterceptors) + Initialized(interceptors[..i]).mapped
        invariant adaptedInterceptors == old(adaptedInterceptors) + Initialized(interceptors[..i]).adapted
      {
        assert interceptors[..i + 1][..i] == interceptors[..i];
        var entry := interceptors[i];
        if entry.None? {
          ErrorIsFinal(interceptors, i + 1);
          return Some(NullEntry(i));
        }
        if entry.value.AsMappedInterceptor? {
          mappedInterceptors := mappedInterceptors + [entry.value.mapped];
        } else {
          var adapted := AdaptInterceptor(entry.value);
          if adapted.Failure? {
            ErrorIsFinal(interceptors, i + 1);
            return Some(adapted.error);
          }
          adaptedInterceptors := adaptedInterceptors + [adapted.value];
        }
        i := i + 1;
      }
      assert interceptors[..i] == interceptors;
      error := None;
    }

    /** getAdaptedInterceptors: null when there are none, else all of them in order. */
    function AdaptedInterceptors(): (r: Option<seq<HandlerInterceptor>>)
      reads this
      ensures r.None? <==> |adaptedInterceptors| == 0
      ensures r.Some? ==> r.value == adaptedInterceptors
    {
      if |adaptedInterceptors| > 0 then Some(adaptedInterceptors) else None
    }

    /** getMappedInterceptors: null when there are none, else all of them in order. */
    function MappedInterceptors(): (r: Option<seq<MappedInterceptor>>)
      reads this
      ensures r.None? <==> |mappedInterceptors| == 0
      ensures r.Some? ==> r.value == mappedInterceptors
    {
      if |mappedInterceptors| > 0 then Some(mappedInterceptors) else None
    }

    /**
     * getHandlerExecutionChain: a pre-built chain is extended, any other handler gets
     * a new chain; the adapted interceptors come first, then the matching mapped ones.
     */
    method GetHandlerExecutionChain(handler: Handler, lookupPath: string, matches: (MappedInterceptor, string) -> bool)
      returns (chain: HandlerExecutionChain)
      modifies if handler.ExistingChain? then {handler.chain} else {}
      ensures handler.ExistingChain? ==> chain == handler.chain
      ensures !handler.ExistingChain? ==> fresh(chain) && chain.handler == handler
      ensures chain.interceptors == (if handler.ExistingChain? then old(handler.chain.interceptors) else [])
                                    + adaptedInterceptors + MatchingOf(mappedInterceptors, lookupPath, matches)
    {
      if handler.ExistingChain? {
        chain := handler.chain;
      } else {
        chain := new HandlerExecutionChain(handler);
      }
      chain.AddInterceptors(AdaptedInterceptors());
      ghost var base := chain.interceptors;
      for i := 0 to |mappedInterceptors|
        invariant chain.interceptors == base + MatchingOf(mappedInterceptors[..i], lookupPath, matches)
      {
        assert mappedInterceptors[..i + 1][..i] == mappedInterceptors[..i];
        var mapped := mappedInterceptors[i];
        if matches(mapped, lookupPath) {
          chain.AddInterceptor(mapped.interceptor);
        }
      }
      assert mappedInterceptors[..|mappedInterceptors|] == mappedInterceptors;
    }

    /** getHandler: null without any handler, else the chain for the resolved handler. */
    method GetHandler(internal: Option<Handler>, beans: map<string, Handler>, lookupPath: string,
                      matches: (MappedInterceptor, string) -> bool)
      returns (r: Result<Option<HandlerExecutionChain>, LookupError>)
      modifies ChainOf(ResolveHandler(internal, defaultHandler, beans))
      ensures var h := ResolveHandler(internal, defaultHandler, beans);
              (r.Failure? <==> h.Failure?) && (r.Failure? ==> r.error == h.error)
              && (r.Success? ==> (r.value.None? <==> h.value.None?))
      ensures var h := ResolveHandler(internal, defaultHandler, beans);
              r.Success? && r.value.Some? ==>
                var handler := h.value.value;
                (handler.ExistingChain? ==> r.value.value == handler.chain)
                && (!handler.ExistingChain? ==> fresh(r.value.value) && r.value.value.handler == handler)
                && r.value.value.interceptors
                   == (if handler.ExistingChain? then old(handler.chain.interceptors) else [])
                      + adaptedInterceptors + MatchingOf(mappedInterceptors, lookupPath, matches)
    {
      var resolved := ResolveHandler(internal, defaultHandler, beans);
      if resolved.Failure? {
        return Failure(resolved.error);
      }
      if resolved.value.None? {
        return Success(None);
      }
      var chain := GetHandlerExecutionChain(resolved.value.value, lookupPath, matches);
      r := Success(Some(chain));
    }
  }
}
