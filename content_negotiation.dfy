/**
 * View selection of spring-webmvc's ContentNegotiatingViewResolver.
 *
 * The requested media types are the deduplicated compatible combinations of the
 * acceptable and producible types.  Every delegate resolver is asked for the plain
 * view name and for the name with each file extension of each requested type; the
 * default views are added last.  The best view is the first redirect, else the first
 * candidate (in requested-type-major order) whose content type is compatible with a
 * requested type; without one the resolver answers the 406 view or null.
 * Media type compatibility, specificity, sorting and parsing are uninterpreted.
 */
module ContentNegotiation {
  import opened Wrappers

  // ---------------------------------------------------------------- collaborators

  /**
   * A MediaType: type, subtype, the quality factor in thousandths, and its other
   * parameters (such as charset), all of which take part in equality.
   */
  datatype MediaType = MediaType(typeName: string, subtype: string, quality: nat, parameters: map<string, string>)

  /** MediaType.ALL, `*` / `*` with full quality and no parameters. */
  const ALL := MediaType("*", "*", 1000, map[])

  /** HttpServletResponse.SC_NOT_ACCEPTABLE, section 6.5.6 of RFC 7231. */
  const SC_NOT_ACCEPTABLE := 406

  /**
   * The MediaType operations the resolver relies on: isCompatibleWith, the more
   * specific of two types (getMostSpecificMediaType), sortBySpecificityAndQuality
   * and parseMediaType.
   */
  datatype MediaTypeOps = MediaTypeOps(
    isCompatibleWith: (MediaType, MediaType) -> bool,
    mostSpecific: (MediaType, MediaType) -> MediaType,
    sortBySpecificityAndQuality: seq<MediaType> -> seq<MediaType>,
    parse: string -> MediaType)

  /**
   * A View: its content type, whether it is a SmartView answering isRedirectView,
   * and the response status its rendering sets.  NotAcceptableView is NOT_ACCEPTABLE_VIEW.
   */
  datatype View =
    | NamedView(id: nat, contentType: Option<string>, redirect: bool, renderStatus: Option<nat>)
    | NotAcceptableView

  function ContentType(v: View): Option<string>
  {
    if v.NamedView? then v.contentType else None
  }

  predicate IsRedirect(v: View)
  {
    v.NamedView? && v.redirect
  }

  function RenderStatus(v: View): Option<nat>
  {
    if v.NamedView? then v.renderStatus else Some(SC_NOT_ACCEPTABLE)
  }

  type Locale = string

  /** A delegate ViewResolver: a bean identity and its resolveViewName. */
  datatype ViewResolver = ViewResolver(id: nat, resolveViewName: (string, Locale) -> Option<View>)

  /**
   * Character.isWhitespace: the fixed set of space, line and paragraph separators
   * (without the no-break spaces) and the ASCII control characters the JDK counts.
   */
  predicate IsWhitespace(c: char)
  {
    c in {' ', '\t', '\n', '\U{B}', '\U{C}', '\r', '\U{1C}', '\U{1D}', '\U{1E}', '\U{1F}',
          '\U{1680}', '\U{180E}', '\U{2000}', '\U{2001}', '\U{2002}', '\U{2003}', '\U{2004}', '\U{2005}', '\U{2006}',
          '\U{2008}', '\U{2009}', '\U{200A}', '\U{2028}', '\U{2029}', '\U{205F}', '\U{3000}'}
  }

  /** StringUtils.hasText: non-null with at least one non-whitespace character. */
  predicate HasText(s: Option<string>)
  {
    s.Some? && exists i :: 0 <= i < |s.value| && !IsWhitespace(s.value[i])
  }

  /** The attribute of the current request that records the selected content type. */
  class RequestAttributes {
    var selectedContentType: Option<MediaType>

    constructor ()
      ensures selectedContentType == None
    {
      selectedContentType := None;
    }
  }

  // ---------------------------------------------------------------- requested media types

  /** An empty Accept result means any type. */
  function Acceptable(resolved: seq<MediaType>): (r: seq<MediaType>)
    ensures |r| > 0
    ensures resolved != [] ==> r == resolved
  {
    if resolved == [] then [ALL] else resolved
  }

  /** The producible-types request attribute, any type when it is absent or empty. */
  function Producible(attribute: Option<seq<MediaType>>): (r: seq<MediaType>)
    ensures |r| > 0
    ensures attribute.Some? && attribute.value != [] ==> r == attribute.value
  {
    if attribute.None? || attribute.value == [] then [ALL] else attribute.value
  }

  /** The combinations of `acceptable` with the first producible types, in loop order. */
  function Row(acceptable: MediaType, producible: seq<MediaType>, ops: MediaTypeOps): seq<MediaType>
  {
    if producible == [] then []
    else
      var p := producible[|producible| - 1];
      Row(acceptable, producible[..|producible| - 1], ops)
      + (if ops.isCompatibleWith(acceptable, p) then [ops.mostSpecific(acceptable, p)] else [])
  }

  /** The combinations the nested loop of getMediaTypes offers, duplicates included. */
  function Combinations(acceptable: seq<MediaType>, producible: seq<MediaType>, ops: MediaTypeOps): seq<MediaType>
  {
    if acceptable == [] then []
    else
      Combinations(acceptable[..|acceptable| - 1], producible, ops)
      + Row(acceptable[|acceptable| - 1], producible, ops)
  }

  /** The LinkedHashSet: first occurrences only, in insertion order. */
  function Dedup(s: seq<MediaType>): seq<MediaType>
  {
    if s == [] then []
    else
      var d := Dedup(s[..|s| - 1]);
      if s[|s| - 1] in d then d else d + [s[|s| - 1]]
  }

  lemma DedupSnoc(s: seq<MediaType>, x: MediaType)
    ensures Dedup(s + [x]) == if x in Dedup(s) then Dedup(s) else Dedup(s) + [x]
  {
    assert (s + [x])[..|s|] == s;
  }

  /** getMediaTypes: null when the manager finds nothing acceptable, else the sorted compatible types. */
  function MediaTypes(resolved: Option<seq<MediaType>>, producibleAttribute: Option<seq<MediaType>>, ops: MediaTypeOps)
    : Option<seq<MediaType>>
  {
    if resolved.None? then None
    else Some(ops.sortBySpecificityAndQuality(
      Dedup(Combinations(Acceptable(resolved.value), Producible(producibleAttribute), ops))))
  }

  lemma {:induction false} DedupElements(s: seq<MediaType>)
    ensures forall x :: x in Dedup(s) <==> x in s
    ensures forall i, j :: 0 <= i < j < |Dedup(s)| ==> Dedup(s)[i] != Dedup(s)[j]
  {
    if s != [] {
      var n := |s| - 1;
      DedupElements(s[..n]);
      assert s == s[..n] + [s[n]];
    }
  }

  /** `d` lists distinct values in the order of their first occurrences in `s`. */
  ghost predicate FirstOccurrenceOrder(s: seq<MediaType>, d: seq<MediaType>)
  {
    forall i, j, q :: 0 <= i < j < |d| && 0 <= q < |s| && s[q] == d[j] ==> d[i] in s[..q]
  }

  /**
   * The LinkedHashSet keeps insertion order: of two kept types, the earlier one
   * occurs in the input before any occurrence of the later one.
   */
  lemma {:induction false} DedupKeepsFirstOccurrenceOrder(s: seq<MediaType>)
    ensures FirstOccurrenceOrder(s, Dedup(s))
  {
    if s != [] {
      var n := |s| - 1;
      var d := Dedup(s[..n]);
      DedupKeepsFirstOccurrenceOrder(s[..n]);
      DedupElements(s[..n]);
      assert s == s[..n] + [s[n]];
      forall i, j, q | 0 <= i < j < |Dedup(s)| && 0 <= q < |s| && s[q] == Dedup(s)[j]
        ensures Dedup(s)[i] in s[..q]
      {
        assert Dedup(s)[i] == d[i];
        assert d[i] in s[..n];
        if q < n {
          assert s[..q] == s[..n][..q];
          assert s[..n][q] == s[q];
          assert j < |d|;
        } else {
          assert s[..q] == s[..n];
        }
      }
    }
  }

  lemma {:induction false} RowElements(a: MediaType, producible: seq<MediaType>, ops: MediaTypeOps, x: MediaType)
    ensures x in Row(a, producible, ops)
      <==> exists p :: p in producible && ops.isCompatibleWith(a, p) && ops.mostSpecific(a, p) == x
  {
    if producible != [] {
      var n := |producible| - 1;
      RowElements(a, producible[..n], ops, x);
      assert producible == producible[..n] + [producible[n]];
    }
  }

  lemma {:induction false} CombinationsElements(acceptable: seq<MediaType>, producible: seq<MediaType>,
                                                ops: MediaTypeOps, x: MediaType)
    ensures x in Combinations(acceptable, producible, ops)
      <==> exists a, p :: a in acceptable && p in producible && ops.isCompatibleWith(a, p) && ops.mostSpecific(a, p) == x
  {
    if acceptable != [] {
      var n := |acceptable| - 1;
      CombinationsElements(acceptable[..n], producible, ops, x);
      RowElements(acceptable[n], producible, ops, x);
      assert acceptable == acceptable[..n] + [acceptable[n]];
    }
  }

  /**
   * Before sorting, the requested types are exactly the most specific types of the
   * compatible acceptable/producible pairs, each once, in the order the nested loop
   * first offers them.
   */
  lemma CompatibleTypesAreDistinctPairs(acceptable: seq<MediaType>, producible: seq<MediaType>,
                                        ops: MediaTypeOps, x: MediaType)
    ensures var d := Dedup(Combinations(acceptable, producible, ops));
            (x in d <==> exists a, p :: a in acceptable && p in producible && ops.isCompatibleWith(a, p)
                                        && ops.mostSpecific(a, p) == x)
            && (forall i, j :: 0 <= i < j < |d| ==> d[i] != d[j])
            && FirstOccurrenceOrder(Combinations(acceptable, producible, ops), d)
  {
    DedupElements(Combinations(acceptable, producible, ops));
    DedupKeepsFirstOccurrenceOrder(Combinations(acceptable, producible, ops));
    CombinationsElements(acceptable, producible, ops, x);
  }

  // ---------------------------------------------------------------- candidate views

  function Resolved(v: Option<View>): seq<View>
  {
    if v.Some? then [v.value] else []
  }

  /** One resolver's views for "name.ext", over the extensions of one requested type. */
  function ExtensionViews(r: ViewResolver, viewName: string, locale: Locale, extensions: seq<string>): seq<View>
  {
    if extensions == [] then []
    else
      var n := |extensions| - 1;
      ExtensionViews(r, viewName, locale, extensions[..n]) + Resolved(r.resolveViewName(viewName + "." + extensions[n], locale))
  }

  function TypeViews(r: ViewResolver, viewName: string, locale: Locale, requested: seq<MediaType>,
                     extensionsOf: MediaType -> seq<string>): seq<View>
  {
    if requested == [] then []
    else
      var n := |requested| - 1;
      TypeViews(r, viewName, locale, requested[..n], extensionsOf)
      + ExtensionViews(r, viewName, locale, extensionsOf(requested[n]))
  }

  /** One resolver's candidates: the plain name first, then the names with extensions. */
  function ResolverViews(r: ViewResolver, viewName: string, locale: Locale, requested: seq<MediaType>,
                         extensionsOf: MediaType -> seq<string>): seq<View>
  {
    Resolved(r.resolveViewName(viewName, locale)) + TypeViews(r, viewName, locale, requested, extensionsOf)
  }

  function AllResolverViews(resolvers: seq<ViewResolver>, viewName: string, locale: Locale, requested: seq<MediaType>,
                            extensionsOf: MediaType -> seq<string>): seq<View>
  {
    if resolvers == [] then []
    else
      var n := |resolvers| - 1;
      AllResolverViews(resolvers[..n], viewName, locale, requested, extensionsOf)
      + ResolverViews(resolvers[n], viewName, locale, requested, extensionsOf)
  }

  /** getCandidateViews: the resolvers in order, then the default views. */
  function CandidateViews(resolvers: seq<ViewResolver>, viewName: string, locale: Locale, requested: seq<MediaType>,
                          extensionsOf: MediaType -> seq<string>, defaultViews: Option<seq<View>>): seq<View>
  {
    AllResolverViews(resolvers, viewName, locale, requested, extensionsOf)
    + (if defaultViews.Some? then defaultViews.value else [])
  }

  /** The view names a resolver is asked for, in order. */
  function TriedNames(viewName: string, requested: seq<MediaType>, extensionsOf: MediaType -> seq<string>): seq<string>
  {
    [viewName] + TypeNames(viewName, requested, extensionsOf)
  }

  function TypeNames(viewName: string, requested: seq<MediaType>, extensionsOf: MediaType -> seq<string>): seq<string>
  {
    if requested == [] then []
    else
      var exts := extensionsOf(requested[0]);
      seq(|exts|, k requires 0 <= k < |exts| => viewName + "." + exts[k])
      + TypeNames(viewName, requested[1..], extensionsOf)
  }

  /** The non-null answers of a resolver to the given names, in order. */
  function ResolveAll(r: ViewResolver, names: seq<string>, locale: Locale): seq<View>
  {
    if names == [] then [] else Resolved(r.resolveViewName(names[0], locale)) + ResolveAll(r, names[1..], locale)
  }

  lemma {:induction false} ResolveAllAppend(r: ViewResolver, a: seq<string>, b: seq<string>, locale: Locale)
    ensures ResolveAll(r, a + b, locale) == ResolveAll(r, a, locale) + ResolveAll(r, b, locale)
  {
    if a == [] {
      assert a + b == b;
    } else {
      assert (a + b)[1..] == a[1..] + b;
      ResolveAllAppend(r, a[1..], b, locale);
    }
  }

  lemma {:induction false} ExtensionViewsResolveNames(r: ViewResolver, viewName: string, locale: Locale, exts: seq<string>)
    ensures ExtensionViews(r, viewName, locale, exts)
            == ResolveAll(r, seq(|exts|, k requires 0 <= k < |exts| => viewName + "." + exts[k]), locale)
  {
    if exts != [] {
      var n := |exts| - 1;
      ExtensionViewsResolveNames(r, viewName, locale, exts[..n]);
      var names := seq(|exts|, k requires 0 <= k < |exts| => viewName + "." + exts[k]);
      assert names == seq(n, k requires 0 <= k < n => viewName + "." + exts[..n][k]) + [viewName + "." + exts[n]];
      ResolveAllAppend(r, names[..n], [names[n]], locale);
    }
  }

  lemma {:induction false} TypeViewsResolveNames(r: ViewResolver, viewName: string, locale: Locale,
                                                 requested: seq<MediaType>, extensionsOf: MediaType -> seq<string>)
    ensures TypeViews(r, viewName, locale, requested, extensionsOf)
            == ResolveAll(r, TypeNames(viewName, requested, extensionsOf), locale)
  {
    if requested != [] {
      var n := |requested| - 1;
      TypeViewsResolveNames(r, viewName, locale, requested[..n], extensionsOf);
      ExtensionViewsResolveNames(r, viewName, locale, extensionsOf(requested[n]));
      TypeNamesAppend(viewName, requested[..n], [requested[n]], extensionsOf);
      assert requested[..n] + [requested[n]] == requested;
      var exts := extensionsOf(requested[n]);
      assert TypeNames(viewName, [requested[n]], extensionsOf)
          == seq(|exts|, k requires 0 <= k < |exts| => viewName + "." + exts[k]);
      ResolveAllAppend(r, TypeNames(viewName, requested[..n], extensionsOf),
                       TypeNames(viewName, [requested[n]], extensionsOf), locale);
    }
  }

  lemma {:induction false} TypeNamesAppend(viewName: string, a: seq<MediaType>, b: seq<MediaType>,
                                           extensionsOf: MediaType -> seq<string>)
    ensures TypeNames(viewName, a + b, extensionsOf) == TypeNames(viewName, a, extensionsOf) + TypeNames(viewName, b, extensionsOf)
  {
    if a == [] {
      assert a + b == b;
    } else {
      assert (a + b)[1..] == a[1..] + b;
      TypeNamesAppend(viewName, a[1..], b, extensionsOf);
    }
  }

  /**
   * Each resolver contributes exactly its non-null answers for the plain view name,
   * then for "name.ext" over each requested type and each of its extensions, in order.
   */
  lemma ResolverAskedForTriedNames(r: ViewResolver, viewName: string, locale: Locale, requested: seq<MediaType>,
                                   extensionsOf: MediaType -> seq<string>)
    ensures ResolverViews(r, viewName, locale, requested, extensionsOf)
            == ResolveAll(r, TriedNames(viewName, requested, extensionsOf), locale)
  {
    TypeViewsResolveNames(r, viewName, locale, requested, extensionsOf);
    ResolveAllAppend(r, [viewName], TypeNames(viewName, requested, extensionsOf), locale);
    assert [viewName][1..] == [];
  }

  // ---------------------------------------------------------------- best view

  /** The index of the first redirect view at or after `k`. */
  function FirstRedirect(candidates: seq<View>, k: nat): (r: Option<nat>)
    requires k <= |candidates|
    ensures r.Some? ==> k <= r.value < |candidates| && IsRedirect(candidates[r.value])
    decreases |candidates| - k
  {
    if k == |candidates| then None
    else if IsRedirect(candidates[k]) then Some(k)
    else FirstRedirect(candidates, k + 1)
  }

  /** The candidate has a content type and it is compatible with the requested type. */
  predicate Accepting(requested: MediaType, candidate: View, ops: MediaTypeOps)
  {
    HasText(ContentType(candidate)) && ops.isCompatibleWith(requested, ops.parse(ContentType(candidate).value))
  }

  /** Pairs (i, j) of requested type and candidate in the order of the nested loop. */
  predicate Before(i: nat, j: nat, i': nat, j': nat)
  {
    i < i' || (i == i' && j < j')
  }

  /** The first accepting (requested type, candidate) pair at or after (i, j), requested type major. */
  function FirstMatch(candidates: seq<View>, requested: seq<MediaType>, i: nat, j: nat, ops: MediaTypeOps)
    : (r: Option<(nat, nat)>)
    requires i <= |requested| && j <= |candidates|
    ensures r.Some? ==> r.value.0 < |requested| && r.value.1 < |candidates| && !Before(r.value.0, r.value.1, i, j)
                        && Accepting(requested[r.value.0], candidates[r.value.1], ops)
    decreases |requested| - i, |candidates| - j
  {
    if i == |requested| then None
    else if j == |candidates| then FirstMatch(candidates, requested, i + 1, 0, ops)
    else if Accepting(requested[i], candidates[j], ops) then Some((i, j))
    else FirstMatch(candidates, requested, i, j + 1, ops)
  }

  /** The view getBestView returns, and the requested type it records. */
  datatype Best = Best(view: Option<View>, selected: Option<MediaType>)

  function BestView(candidates: seq<View>, requested: seq<MediaType>, ops: MediaTypeOps): Best
  {
    match FirstRedirect(candidates, 0)
    case Some(k) => Best(Some(candidates[k]), None)
    case None =>
      match FirstMatch(candidates, requested, 0, 0, ops)
      case Some((i, j)) => Best(Some(candidates[j]), Some(requested[i]))
      case None => Best(None, None)
  }

  lemma {:induction false} FirstRedirectIsFirst(candidates: seq<View>, k: nat)
    requires k <= |candidates|
    ensures var r := FirstRedirect(candidates, k);
            forall x :: k <= x < |candidates| && (r.None? || x < r.value) ==> !IsRedirect(candidates[x])
    decreases |candidates| - k
  {
    if k < |candidates| && !IsRedirect(candidates[k]) {
      FirstRedirectIsFirst(candidates, k + 1);
    }
  }

  lemma {:induction false} FirstMatchIsFirst(candidates: seq<View>, requested: seq<MediaType>, i: nat, j: nat,
                                             ops: MediaTypeOps)
    requires i <= |requested| && j <= |candidates|
    ensures var r := FirstMatch(candidates, requested, i, j, ops);
            forall p, q :: (0 <= p < |requested| && 0 <= q < |candidates| && !Before(p, q, i, j)
                            && (r.None? || Before(p, q, r.value.0, r.value.1)))
                           ==> !Accepting(requested[p], candidates[q], ops)
    decreases |requested| - i, |candidates| - j
  {
    if i < |requested| {
      if j == |candidates| {
        FirstMatchIsFirst(candidates, requested, i + 1, 0, ops);
      } else if !Accepting(requested[i], candidates[j], ops) {
        FirstMatchIsFirst(candidates, requested, i, j + 1, ops);
      }
    }
  }

  /**
   * The best view is the first redirect when there is one; otherwise it is the
   * accepting candidate found first when scanning the requested types in order and,
   * for each, the candidates in order, and that type is recorded; otherwise none.
   */
  lemma BestViewIsFirstInOrder(candidates: seq<View>, requested: seq<MediaType>, ops: MediaTypeOps)
    ensures var b := BestView(candidates, requested, ops);
            (b.view.Some? && IsRedirect(b.view.value) ==> b.selected.None?)
            && ((exists k :: 0 <= k < |candidates| && IsRedirect(candidates[k])) ==>
                  exists k :: 0 <= k < |candidates| && IsRedirect(candidates[k]) && b.view == Some(candidates[k])
                              && forall x :: 0 <= x < k ==> !IsRedirect(candidates[x]))
            && ((forall k :: 0 <= k < |candidates| ==> !IsRedirect(candidates[k])) ==>
                  (b.view.None? <==> forall p, q :: 0 <= p < |requested| && 0 <= q < |candidates|
                                                    ==> !Accepting(requested[p], candidates[q], ops))
                  && (b.view.Some? ==>
                        exists p, q :: 0 <= p < |requested| && 0 <= q < |candidates|
                                       && Accepting(requested[p], candidates[q], ops)
                                       && b.view == Some(candidates[q]) && b.selected == Some(requested[p])
                                       && forall p', q' :: 0 <= p' < |requested| && 0 <= q' < |candidates|
                                                           && Before(p', q', p, q)
                                                           ==> !Accepting(requested[p'], candidates[q'], ops)))
  {
    FirstRedirectIsFirst(candidates, 0);
    FirstMatchIsFirst(candidates, requested, 0, 0, ops);
    var fm := FirstMatch(candidates, requested, 0, 0, ops);
    if FirstRedirect(candidates, 0).None? && fm.Some? {
      var p, q := fm.value.0, fm.value.1;
      assert Accepting(requested[p], candidates[q], ops);
    }
  }

  /** resolveViewName without a best view: the 406 view when so configured, else null. */
  function Fallback(best: Option<View>, useNotAcceptableStatusCode: bool): (r: Option<View>)
    ensures best.Some? ==> r == best
    ensures best.None? ==> (r.Some? <==> useNotAcceptableStatusCode)
    ensures best.None? && r.Some? ==>
      r.value == NotAcceptableView && ContentType(r.value).None? && RenderStatus(r.value) == Some(SC_NOT_ACCEPTABLE)
  {
    if best.Some? then best
    else if useNotAcceptableStatusCode then Some(NotAcceptableView)
    else None
  }

  // ---------------------------------------------------------------- resolver filtering

  /** The auto-detected resolvers other than the one with identity `self`, in order. */
  function Without(beans: seq<ViewResolver>, self: nat): seq<ViewResolver>
  {
    if beans == [] then []
    else
      var n := |beans| - 1;
      Without(beans[..n], self) + (if beans[n].id != self then [beans[n]] else [])
  }

  /** The beans whose identity is not `self`, filtered front to back. */
  function OtherBeans(beans: seq<ViewResolver>, self: nat): seq<ViewResolver>
  {
    if beans == [] then []
    else (if beans[0].id != self then [beans[0]] else []) + OtherBeans(beans[1..], self)
  }

  lemma {:induction false} OtherBeansAppend(a: seq<ViewResolver>, b: seq<ViewResolver>, self: nat)
    ensures OtherBeans(a + b, self) == OtherBeans(a, self) + OtherBeans(b, self)
  {
    if a == [] {
      assert a + b == b;
    } else {
      var ab := a + b;
      assert ab[0] == a[0];
      assert ab[1..] == a[1..] + b;
      OtherBeansAppend(a[1..], b, self);
      var head := if a[0].id != self then [a[0]] else [];
      assert OtherBeans(ab, self) == head + OtherBeans(a[1..] + b, self);
      assert OtherBeans(a, self) == head + OtherBeans(a[1..], self);
    }
  }

  /**
   * Filtering drops exactly the negotiating resolver itself: the result is the other
   * beans, in their order, and holds nothing else.
   */
  lemma {:induction false} WithoutDropsOnlySelf(beans: seq<ViewResolver>, self: nat)
    ensures Without(beans, self) == OtherBeans(beans, self)
    ensures forall x :: x in Without(beans, self) <==> x in beans && x.id != self
    ensures |Without(beans, self)| <= |beans|
  {
    if beans != [] {
      var n := |beans| - 1;
      WithoutDropsOnlySelf(beans[..n], self);
      assert beans == beans[..n] + [beans[n]];
      OtherBeansAppend(beans[..n], [beans[n]], self);
      assert OtherBeans([beans[n]], self) == (if beans[n].id != self then [beans[n]] else []) + OtherBeans([], self);
    }
  }

  // ---------------------------------------------------------------- the loops of getCandidateViews

  /** One resolver's pass in getCandidateViews: the plain name, then each requested type's extensions. */
  method CandidatesOf(resolver: ViewResolver, viewName: string, locale: Locale, requested: seq<MediaType>,
                      extensionsOf: MediaType -> seq<string>) returns (views: seq<View>)
    ensures views == ResolverViews(resolver, viewName, locale, requested, extensionsOf)
  {
    var view := resolver.resolveViewName(viewName, locale);
    views := [];
    if view.Some? {
      views := [view.value];
    }
    var found := TypeCandidatesOf(resolver, viewName, locale, requested, extensionsOf);
    views := views + found;
  }

  /** The loop over the requested types. */
  method TypeCandidatesOf(resolver: ViewResolver, viewName: string, locale: Locale, requested: seq<MediaType>,
                          extensionsOf: MediaType -> seq<string>) returns (views: seq<View>)
    ensures views == TypeViews(resolver, viewName, locale, requested, extensionsOf)
  {
    views := [];
    for t := 0 to |requested|
      invariant views == TypeViews(resolver, viewName, locale, requested[..t], extensionsOf)
    {
      var found := ExtensionCandidatesOf(resolver, viewName, locale, extensionsOf(requested[t]));
      TypeViewsStep(resolver, viewName, locale, requested, t, extensionsOf);
      views := views + found;
    }
    assert requested[..|requested|] == requested;
  }

  lemma TypeViewsStep(resolver: ViewResolver, viewName: string, locale: Locale, requested: seq<MediaType>, t: nat,
                      extensionsOf: MediaType -> seq<string>)
    requires t < |requested|
    ensures TypeViews(resolver, viewName, locale, requested[..t + 1], extensionsOf)
            == TypeViews(resolver, viewName, locale, requested[..t], extensionsOf)
               + ExtensionViews(resolver, viewName, locale, extensionsOf(requested[t]))
  {
    assert requested[..t + 1][..t] == requested[..t];
  }

  /** The innermost loop: "name.ext" for each extension. */
  method ExtensionCandidatesOf(resolver: ViewResolver, viewName: string, locale: Locale, extensions: seq<string>)
    returns (views: seq<View>)
    ensures views == ExtensionViews(resolver, viewName, locale, extensions)
  {
    views := [];
    for e := 0 to |extensions|
      invariant views == ExtensionViews(resolver, viewName, locale, extensions[..e])
    {
      assert extensions[..e + 1][..e] == extensions[..e];
      var view := resolver.resolveViewName(viewName + "." + extensions[e], locale);
      if view.Some? {
        views := views + [view.value];
      }
    }
    assert extensions[..|extensions|] == extensions;
  }

  // ---------------------------------------------------------------- the resolver

  class ContentNegotiatingViewResolver {
    const id: nat
    const resolveFileExtensions: MediaType -> seq<string>
    const ops: MediaTypeOps
    var useNotAcceptableStatusCode: bool
    var defaultViews: Option<seq<View>>
    var viewResolvers: Option<seq<ViewResolver>>

    constructor (id: nat, resolveFileExtensions: MediaType -> seq<string>, ops: MediaTypeOps)
      ensures this.id == id && this.resolveFileExtensions == resolveFileExtensions && this.ops == ops
      ensures !useNotAcceptableStatusCode && defaultViews == None && viewResolvers == None
    {
      this.id := id;
      this.resolveFileExtensions := resolveFileExtensions;
      this.ops := ops;
      useNotAcceptableStatusCode := false;
      defaultViews := None;
      viewResolvers := None;
    }

    method SetUseNotAcceptableStatusCode(b: bool)
      modifies this`useNotAcceptableStatusCode
      ensures useNotAcceptableStatusCode == b
    {
      useNotAcceptableStatusCode := b;
    }

    method SetDefaultViews(views: Option<seq<View>>)
      modifies this`defaultViews
      ensures defaultViews == views
    {
      defaultViews := views;
    }

    method SetViewResolvers(resolvers: Option<seq<ViewResolver>>)
      modifies this`viewResolvers
      ensures viewResolvers == resolvers
    {
      viewResolvers := resolvers;
    }

    /**
     * initServletContext: without configured resolvers, every detected ViewResolver
     * bean but this one; then the list is sorted by `sortByOrder`.
     */
    method InitServletContext(matchingBeans: seq<ViewResolver>, sortByOrder: seq<ViewResolver> -> seq<ViewResolver>)
      modifies this`viewResolvers
      ensures viewResolvers
              == Some(sortByOrder(if old(viewResolvers).None? then Without(matchingBeans, id) else old(viewResolvers).value))
    {
      if viewResolvers.None? {
        var detected: seq<ViewResolver> := [];
        for i := 0 to |matchingBeans|
          invariant detected == Without(matchingBeans[..i], id)
        {
          assert matchingBeans[..i + 1][..i] == matchingBeans[..i];
          if id != matchingBeans[i].id {
            detected := detected + [matchingBeans[i]];
          }
        }
        assert matchingBeans[..|matchingBeans|] == matchingBeans;
        viewResolvers := Some(detected);
      }
      viewResolvers := Some(sortByOrder(viewResolvers.value));
    }

    /**
     * getMediaTypes: `resolved` is what the ContentNegotiationManager resolves (None:
     * HttpMediaTypeNotAcceptableException), `producibleAttribute` the request attribute.
     */
    method GetMediaTypes(resolved: Option<seq<MediaType>>, producibleAttribute: Option<seq<MediaType>>)
      returns (r: Option<seq<MediaType>>)
      ensures r == MediaTypes(resolved, producibleAttribute, ops)
    {
      if resolved.None? {
        return None;
      }
      var acceptable := Acceptable(resolved.value);
      var producible := Producible(producibleAttribute);
      var compatible: seq<MediaType> := [];
      for i := 0 to |acceptable|
        invariant compatible == Dedup(Combinations(acceptable[..i], producible, ops))
      {
        assert acceptable[..i + 1][..i] == acceptable[..i];
        compatible := AddCompatible(compatible, Combinations(acceptable[..i], producible, ops), acceptable[i], producible);
      }
      assert acceptable[..|acceptable|] == acceptable;
      r := Some(ops.sortBySpecificityAndQuality(compatible));
    }

    /** The inner loop of getMediaTypes: the types one acceptable type yields, added to the set. */
    method AddCompatible(compatible: seq<MediaType>, ghost before: seq<MediaType>, a: MediaType, producible: seq<MediaType>)
      returns (r: seq<MediaType>)
      requires compatible == Dedup(before)
      ensures r == Dedup(before + Row(a, producible, ops))
    {
      r := compatible;
      assert producible[..0] == [] && before + [] == before;
      for j := 0 to |producible|
        invariant r == Dedup(before + Row(a, producible[..j], ops))
      {
        assert producible[..j + 1][..j] == producible[..j];
        ghost var offered := before + Row(a, producible[..j], ops);
        if ops.isCompatibleWith(a, producible[j]) {
          var t := ops.mostSpecific(a, producible[j]);
          assert before + Row(a, producible[..j + 1], ops) == offered + [t];
          DedupSnoc(offered, t);
          if t !in r {
            r := r + [t];
          }
        } else {
          assert before + Row(a, producible[..j + 1], ops) == offered;
        }
      }
      assert producible[..|producible|] == producible;
    }

    /** getCandidateViews: the loop over the resolvers, then the default views. */
    method GetCandidateViews(viewName: string, locale: Locale, requested: seq<MediaType>) returns (views: seq<View>)
      requires viewResolvers.Some?
      ensures views == CandidateViews(viewResolvers.value, viewName, locale, requested, resolveFileExtensions, defaultViews)
    {
      var resolvers := viewResolvers.value;
      views := [];
      for i := 0 to |resolvers|
        invariant views == AllResolverViews(resolvers[..i], viewName, locale, requested, resolveFileExtensions)
      {
        assert resolvers[..i + 1][..i] == resolvers[..i];
        var found := CandidatesOf(resolvers[i], viewName, locale, requested, resolveFileExtensions);
        views := views + found;
      }
      assert resolvers[..|resolvers|] == resolvers;
      if defaultViews.Some? && |defaultViews.value| > 0 {
        views := views + defaultViews.value;
      }
    }

    /** getBestView: the redirect scan, then the requested-type-major scan that records the selected type. */
    method GetBestView(candidates: seq<View>, requested: seq<MediaType>, attrs: RequestAttributes)
      returns (best: Option<View>)
      modifies attrs`selectedContentType
      ensures var b := BestView(candidates, requested, ops);
              best == b.view
              && attrs.selectedContentType == (if b.selected.Some? then b.selected else old(attrs.selectedContentType))
    {
      for k := 0 to |candidates|
        invariant FirstRedirect(candidates, 0) == FirstRedirect(candidates, k)
      {
        if IsRedirect(candidates[k]) {
          return Some(candidates[k]);
        }
      }
      for i := 0 to |requested|
        invariant FirstRedirect(candidates, 0).None?
        invariant FirstMatch(candidates, requested, 0, 0, ops) == FirstMatch(candidates, requested, i, 0, ops)
        invariant attrs.selectedContentType == old(attrs.selectedContentType)
      {
        for j := 0 to |candidates|
          invariant FirstMatch(candidates, requested, 0, 0, ops) == FirstMatch(candidates, requested, i, j, ops)
          invariant attrs.selectedContentType == old(attrs.selectedContentType)
        {
          var contentType := ContentType(candidates[j]);
          if HasText(contentType) {
            var candidateContentType := ops.parse(contentType.value);
            if ops.isCompatibleWith(requested[i], candidateContentType) {
              attrs.selectedContentType := Some(requested[i]);
              return Some(candidates[j]);
            }
          }
        }
      }
      best := None;
    }

    /**
     * resolveViewName: the best view for the request, else the 406 view or null.
     * `resolved` and `producibleAttribute` describe the current request.
     */
    method ResolveViewName(viewName: string, locale: Locale, resolved: Option<seq<MediaType>>,
                           producibleAttribute: Option<seq<MediaType>>, attrs: RequestAttributes)
      returns (view: Option<View>)
      requires viewResolvers.Some?
      modifies attrs`selectedContentType
      ensures var types := MediaTypes(resolved, producibleAttribute, ops);
              var b := if types.None? then Best(None, None)
                       else BestView(CandidateViews(viewResolvers.value, viewName, locale, types.value,
                                                    resolveFileExtensions, defaultViews), types.value, ops);
              view == Fallback(b.view, useNotAcceptableStatusCode)
              && attrs.selectedContentType == (if b.selected.Some? then b.selected else old(attrs.selectedContentType))
    {
      var requested := GetMediaTypes(resolved, producibleAttribute);
      if requested.Some? {
        var candidates := GetCandidateViews(viewName, locale, requested.value);
        var best := GetBestView(candidates, requested.value, attrs);
        if best.Some? {
          return best;
        }
      }
      if useNotAcceptableStatusCode {
        view := Some(NotAcceptableView);
      } else {
        view := None;
      }
    }
  }
}
