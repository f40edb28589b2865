/**
 * Named-value argument resolution of spring-web's AbstractNamedValueMethodArgumentResolver
 * (request parameters, headers, cookies and the like).
 *
 * The annotation-derived NamedValueInfo of a parameter is sanitized once and cached.
 * A missing value falls back to the default value, or reports a missing required
 * value, and a null left for a primitive parameter becomes `false` or an error.
 * The subclass hooks (createNamedValueInfo, resolveName, handleMissingValue) and the
 * bean factory's placeholder and expression evaluation are uninterpreted functions.
 */
module NamedValue {
  import opened Wrappers

  /** ValueConstants.DEFAULT_NONE: the annotation default standing for "no default value". */
  const DEFAULT_NONE := "\n\t\t\n\t\t\n\U{E000}\U{E001}\U{E002}\n\t\t\t\t\n"

  /** An argument value: a String, Boolean.FALSE, or any other object. */
  datatype Value = StringValue(s: string) | BooleanFalse | OtherValue(id: nat)

  /** The declared parameter type: primitive boolean, another primitive, or a reference type. */
  datatype ParamType = PrimitiveBoolean | OtherPrimitive(primitiveName: string) | ReferenceType(className: string)

  predicate IsPrimitive(t: ParamType)
  {
    !t.ReferenceType?
  }

  /**
   * A MethodParameter: the method or constructor declaring it, its position, the name
   * found in debug information (if any), and its type.
   */
  datatype MethodParameter = MethodParameter(declaringMethod: string, index: nat, parameterName: Option<string>,
                                             parameterType: ParamType)

  /** NamedValueInfo: `defaultValue` None is a null default. */
  datatype NamedValueInfo = NamedValueInfo(name: string, required: bool, defaultValue: Option<string>)

  datatype ArgumentError =
    // Assert.notNull in updateNamedValueInfo: no name given and none in the class file
    | NameNotAvailable(parameterType: ParamType)
    // handleNullValue: a null for a primitive other than boolean
    | NullForPrimitive(name: string, parameterType: ParamType)
    // whatever handleMissingValue throws
    | MissingValue(name: string)

  /**
   * A ConfigurableBeanFactory as the resolver uses it: placeholder resolution and the
   * optional BeanExpressionResolver's evaluation (which may yield null).
   */
  datatype ConfigurableBeanFactory = ConfigurableBeanFactory(
    resolveEmbeddedValue: string -> string,
    expressionResolver: Option<string -> Option<Value>>)

  // ---------------------------------------------------------------- pure decisions

  /** updateNamedValueInfo: the parameter's own name for an empty one, DEFAULT_NONE as null. */
  function UpdateNamedValueInfo(parameter: MethodParameter, info: NamedValueInfo): (r: Result<NamedValueInfo, ArgumentError>)
    ensures r.Failure? <==> |info.name| == 0 && parameter.parameterName.None?
    ensures r.Failure? ==> r.error == NameNotAvailable(parameter.parameterType)
    ensures r.Success? ==> r.value.required == info.required
    ensures r.Success? && |info.name| > 0 ==> r.value.name == info.name
    ensures r.Success? && |info.name| == 0 ==> r.value.name == parameter.parameterName.value
    ensures r.Success? ==> r.value.defaultValue != Some(DEFAULT_NONE)
    ensures r.Success? && info.defaultValue != Some(DEFAULT_NONE) ==> r.value.defaultValue == info.defaultValue
  {
    if |info.name| == 0 && parameter.parameterName.None? then Failure(NameNotAvailable(parameter.parameterType))
    else
      var name := if |info.name| == 0 then parameter.parameterName.value else info.name;
      var defaultValue := if info.defaultValue == Some(DEFAULT_NONE) then None else info.defaultValue;
      Success(NamedValueInfo(name, info.required, defaultValue))
  }

  /** Sanitizing a sanitized NamedValueInfo changes nothing. */
  lemma UpdateIsIdempotent(parameter: MethodParameter, info: NamedValueInfo)
    requires UpdateNamedValueInfo(parameter, info).Success?
    ensures UpdateNamedValueInfo(parameter, UpdateNamedValueInfo(parameter, info).value) == UpdateNamedValueInfo(parameter, info)
  {
  }

  /**
   * resolveDefaultValue: the literal default without a bean factory, and also without
   * an expression resolver; otherwise the evaluation of the placeholder-resolved default.
   */
  function ResolveDefaultValue(beanFactory: Option<ConfigurableBeanFactory>, defaultValue: string): (r: Option<Value>)
    ensures beanFactory.None? || beanFactory.value.expressionResolver.None? ==> r == Some(StringValue(defaultValue))
    ensures beanFactory.Some? && beanFactory.value.expressionResolver.Some? ==>
      r == beanFactory.value.expressionResolver.value(beanFactory.value.resolveEmbeddedValue(defaultValue))
  {
    if beanFactory.None? then Some(StringValue(defaultValue))
    else
      var placeholdersResolved := beanFactory.value.resolveEmbeddedValue(defaultValue);
      match beanFactory.value.expressionResolver
      case None => Some(StringValue(defaultValue))
      case Some(evaluate) => evaluate(placeholdersResolved)
  }

  /** Without an expression resolver, placeholders in a default are not substituted. */
  lemma PlaceholdersNeedExpressionResolver(resolve: string -> string, defaultValue: string)
    ensures ResolveDefaultValue(Some(ConfigurableBeanFactory(resolve, None)), defaultValue) == Some(StringValue(defaultValue))
    ensures ResolveDefaultValue(Some(ConfigurableBeanFactory(resolve, None)), defaultValue)
            == ResolveDefaultValue(None, defaultValue)
  {
  }

  /** handleNullValue: null becomes false for boolean, fails for another primitive, stays null otherwise. */
  function HandleNullValue(name: string, value: Option<Value>, paramType: ParamType): (r: Result<Option<Value>, ArgumentError>)
    ensures value.Some? ==> r == Success(value)
    ensures value.None? && paramType == PrimitiveBoolean ==> r == Success(Some(BooleanFalse))
    ensures r.Failure? <==> value.None? && paramType.OtherPrimitive?
    ensures r.Failure? ==> r.error == NullForPrimitive(name, paramType)
    // a successful result is null only for a reference type
    ensures r.Success? && r.value.None? ==> !IsPrimitive(paramType)
  {
    if value.None? then
      if paramType == PrimitiveBoolean then Success(Some(BooleanFalse))
      else if paramType.OtherPrimitive? then Failure(NullForPrimitive(name, paramType))
      else Success(value)
    else Success(value)
  }

  /** The value decision of resolveArgument, and whether handleMissingValue was called. */
  datatype Resolution = Resolution(arg: Result<Option<Value>, ArgumentError>, missingValueHandled: bool)

  function ResolveValue(info: NamedValueInfo, resolved: Option<Value>, paramType: ParamType,
                        beanFactory: Option<ConfigurableBeanFactory>,
                        handleMissingValue: string -> Option<ArgumentError>): (r: Resolution)
    // handleMissingValue is called exactly for a missing required value without default
    ensures r.missingValueHandled <==> resolved.None? && info.defaultValue.None? && info.required
    // a missing value with a default: the resolved default, made safe for primitives
    ensures resolved.None? && info.defaultValue.Some? ==>
      r.arg == HandleNullValue(info.name, ResolveDefaultValue(beanFactory, info.defaultValue.value), paramType)
    // a missing value without default: missing-value failure, or null made safe for primitives
    ensures resolved.None? && info.defaultValue.None? ==>
      r.arg == if info.required && handleMissingValue(info.name).Some? then Failure(handleMissingValue(info.name).value)
               else HandleNullValue(info.name, None, paramType)
    // an empty string gives way to the default only when there is one
    ensures resolved == Some(StringValue("")) ==>
      r.arg == Success(if info.defaultValue.Some? then ResolveDefaultValue(beanFactory, info.defaultValue.value) else resolved)
    // any other value is kept
    ensures resolved.Some? && resolved != Some(StringValue("")) ==> r.arg == Success(resolved)
  {
    if resolved.None? then
      if info.defaultValue.Some? then
        Resolution(HandleNullValue(info.name, ResolveDefaultValue(beanFactory, info.defaultValue.value), paramType), false)
      else if info.required then
        match handleMissingValue(info.name)
        case Some(e) => Resolution(Failure(e), true)
        case None => Resolution(HandleNullValue(info.name, None, paramType), true)
      else Resolution(HandleNullValue(info.name, None, paramType), false)
    else if resolved.value == StringValue("") && info.defaultValue.Some? then
      Resolution(Success(ResolveDefaultValue(beanFactory, info.defaultValue.value)), false)
    else Resolution(Success(resolved), false)
  }

  /**
   * A null argument for a primitive parameter survives only one way: the value was
   * the empty string and the default value evaluated to null.
   */
  lemma NullPrimitiveOnlyFromEmptyString(info: NamedValueInfo, resolved: Option<Value>, paramType: ParamType,
                                         beanFactory: Option<ConfigurableBeanFactory>,
                                         handleMissingValue: string -> Option<ArgumentError>)
    requires IsPrimitive(paramType)
    ensures var r := ResolveValue(info, resolved, paramType, beanFactory, handleMissingValue);
            r.arg == Success(None)
            <==> resolved == Some(StringValue("")) && info.defaultValue.Some?
                 && ResolveDefaultValue(beanFactory, info.defaultValue.value).None?
  {
  }

  // ---------------------------------------------------------------- the resolver

  class AbstractNamedValueMethodArgumentResolver {
    const beanFactory: Option<ConfigurableBeanFactory>
    /** The subclass's createNamedValueInfo. */
    const createNamedValueInfo: MethodParameter -> NamedValueInfo
    var namedValueInfoCache: map<MethodParameter, NamedValueInfo>
    /** The parameters createNamedValueInfo has been called for, in order. */
    ghost var created: seq<MethodParameter>

    /** Every cached entry is the sanitized info of its parameter, computed once. */
    ghost predicate Valid()
      reads this
    {
      (forall q :: q in namedValueInfoCache ==>
         UpdateNamedValueInfo(q, createNamedValueInfo(q)) == Success(namedValueInfoCache[q]))
      && (forall i :: 0 <= i < |created| && UpdateNamedValueInfo(created[i], createNamedValueInfo(created[i])).Success?
           ==> created[i] in namedValueInfoCache)
      && (forall i, j :: 0 <= i < j < |created| && created[i] == created[j]
           ==> UpdateNamedValueInfo(created[i], createNamedValueInfo(created[i])).Failure?)
    }

    constructor (beanFactory: Option<ConfigurableBeanFactory>, createNamedValueInfo: MethodParameter -> NamedValueInfo)
      ensures this.beanFactory == beanFactory && this.createNamedValueInfo == createNamedValueInfo
      ensures namedValueInfoCache == map[] && created == []
      ensures Valid()
    {
      this.beanFactory := beanFactory;
      this.createNamedValueInfo := createNamedValueInfo;
      namedValueInfoCache := map[];
      created := [];
    }

    /** getNamedValueInfo: a cached info is returned as it is; otherwise it is created, sanitized and cached. */
    method GetNamedValueInfo(parameter: MethodParameter) returns (r: Result<NamedValueInfo, ArgumentError>)
      requires Valid()
      modifies this`namedValueInfoCache, this`created
      ensures Valid()
      ensures r == UpdateNamedValueInfo(parameter, createNamedValueInfo(parameter))
      ensures parameter in old(namedValueInfoCache) ==>
        namedValueInfoCache == old(namedValueInfoCache) && created == old(created)
      ensures parameter !in old(namedValueInfoCache) ==>
        created == old(created) + [parameter]
        && namedValueInfoCache == if r.Success? then old(namedValueInfoCache)[parameter := r.value]
                                  else old(namedValueInfoCache)
    {
      if parameter in namedValueInfoCache {
        return Success(namedValueInfoCache[parameter]);
      }
      var info := createNamedValueInfo(parameter);
      created := created + [parameter];
      r := UpdateNamedValueInfo(parameter, info);
      if r.Success? {
        namedValueInfoCache := namedValueInfoCache[parameter := r.value];
      }
    }

    /**
     * resolveArgument: the info, the subclass's resolveName, the value decision, and
     * the data binder's conversion when there is a binder factory.
     */
    method ResolveArgument(parameter: MethodParameter, resolveName: (string, MethodParameter) -> Option<Value>,
                           handleMissingValue: string -> Option<ArgumentError>,
                           convert: Option<(Option<Value>, ParamType) -> Option<Value>>)
      returns (r: Result<Option<Value>, ArgumentError>)
      requires Valid()
      modifies this`namedValueInfoCache, this`created
      ensures Valid()
      ensures var info := UpdateNamedValueInfo(parameter, createNamedValueInfo(parameter));
              (info.Failure? ==> r == Failure(info.error))
              && (info.Success? ==>
                    var decided := ResolveValue(info.value, resolveName(info.value.name, parameter),
                                                parameter.parameterType, beanFactory, handleMissingValue).arg;
                    r == if decided.Failure? || convert.None? then decided
                         else Success(convert.value(decided.value, parameter.parameterType)))
    {
      var info := GetNamedValueInfo(parameter);
      if info.Failure? {
        return Failure(info.error);
      }
      var arg := resolveName(info.value.name, parameter);
      var decided := ResolveValue(info.value, arg, parameter.parameterType, beanFactory, handleMissingValue);
      if decided.arg.Failure? {
        return decided.arg;
      }
      r := decided.arg;
      if convert.Some? {
        r := Success(convert.value(r.value, parameter.parameterType));
      }
    }
  }

  /** A second lookup of the same parameter finds the cached info and creates nothing. */
  method CachedOnSecondLookup(resolver: AbstractNamedValueMethodArgumentResolver, parameter: MethodParameter)
    returns (first: Result<NamedValueInfo, ArgumentError>, second: Result<NamedValueInfo, ArgumentError>)
    requires resolver.Valid()
    modifies resolver
    ensures first == second
    ensures first.Success? ==> |resolver.created| <= |old(resolver.created)| + 1
    ensures parameter in old(resolver.namedValueInfoCache) ==> resolver.created == old(resolver.created)
  {
    first := resolver.GetNamedValueInfo(parameter);
    second := resolver.GetNamedValueInfo(parameter);
  }
}
