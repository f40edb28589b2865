/**
 * spring-webmvc's RequestResponseBodyMethodProcessor: which parameters and return
 * types it handles, how a `@RequestBody` argument is read, bound and validated, when a
 * validation failure becomes a MethodArgumentNotValidException, and how a
 * `@ResponseBody` return value is written.
 *
 * Reading and writing through the message converters, the data binder's validator and
 * the variable-name convention are parameters.
 */
module RequestBody {
  import opened Wrappers

  const REQUEST_BODY := "org.springframework.web.bind.annotation.RequestBody"
  const RESPONSE_BODY := "org.springframework.web.bind.annotation.ResponseBody"
  /** BindingResult.MODEL_KEY_PREFIX. */
  const MODEL_KEY_PREFIX := "org.springframework.validation.BindingResult."
  const VALID_PREFIX := "Valid"

  /** The value of an annotation's `value` attribute: an array of hints, or one (possibly null) hint. */
  datatype AnnotationValue = ArrayValue(items: seq<Option<string>>) | SingleValue(item: Option<string>)

  datatype Annotation = Annotation(annotationType: string, simpleName: string, value: AnnotationValue)

  /** A parameter type, and whether it is assignable to `Errors`. */
  datatype ParamType = ParamType(name: string, isErrors: bool)

  /** A MethodParameter: its index, the method's parameter types, its own and its method's annotations. */
  datatype MethodParameter = MethodParameter(
    index: nat,
    parameterTypes: seq<ParamType>,
    parameterAnnotations: seq<Annotation>,
    methodAnnotations: seq<Annotation>)

  datatype Body = Body(id: nat)

  datatype BindingResult = BindingResult(objectName: string, target: Option<Body>, errors: seq<string>)

  datatype ProcessorError =
    | HttpMessageNotReadable(reason: string)
    | MethodArgumentNotValid(parameter: MethodParameter, bindingResult: BindingResult)
    | WriteFailure(reason: string)

  predicate HasAnnotation(annotations: seq<Annotation>, annotationType: string)
  {
    exists i :: 0 <= i < |annotations| && annotations[i].annotationType == annotationType
  }

  /** supportsParameter: the parameter carries `@RequestBody`. */
  function SupportsParameter(parameter: MethodParameter): (r: bool)
    ensures r <==> exists i :: 0 <= i < |parameter.parameterAnnotations|
                             && parameter.parameterAnnotations[i].annotationType == REQUEST_BODY
  {
    HasAnnotation(parameter.parameterAnnotations, REQUEST_BODY)
  }

  /** supportsReturnType: the method carries `@ResponseBody`. */
  function SupportsReturnType(returnType: MethodParameter): (r: bool)
    ensures r <==> exists i :: 0 <= i < |returnType.methodAnnotations|
                             && returnType.methodAnnotations[i].annotationType == RESPONSE_BODY
  {
    HasAnnotation(returnType.methodAnnotations, RESPONSE_BODY)
  }

  /** isBindExceptionRequired: unless the next parameter is an `Errors`. */
  function IsBindExceptionRequired(parameter: MethodParameter): (r: bool)
    ensures !r <==> parameter.index + 1 < |parameter.parameterTypes| && parameter.parameterTypes[parameter.index + 1].isErrors
  {
    var i := parameter.index;
    var hasBindingResult := |parameter.parameterTypes| > i + 1 && parameter.parameterTypes[i + 1].isErrors;
    !hasBindingResult
  }

  predicate StartsWithValid(name: string)
  {
    |name| >= |VALID_PREFIX| && name[..|VALID_PREFIX|] == VALID_PREFIX
  }

  /** The index of the first annotation whose simple name starts with "Valid". */
  function FirstValidAnnotation(annotations: seq<Annotation>): (r: Option<nat>)
    ensures r.Some? ==> r.value < |annotations| && StartsWithValid(annotations[r.value].simpleName)
                        && forall i :: 0 <= i < r.value ==> !StartsWithValid(annotations[i].simpleName)
    ensures r.None? ==> forall i :: 0 <= i < |annotations| ==> !StartsWithValid(annotations[i].simpleName)
  {
    if annotations == [] then None
    else if StartsWithValid(annotations[0].simpleName) then Some(0)
    else
      var rest := FirstValidAnnotation(annotations[1..]);
      if rest.Some? then
        assert forall i :: 1 <= i < rest.value + 1 ==> annotations[i] == annotations[1..][i - 1];
        Some(rest.value + 1)
      else
        assert forall i :: 1 <= i < |annotations| ==> annotations[i] == annotations[1..][i - 1];
        None
  }

  /** The validation hints of an annotation: its array, or its single value wrapped. */
  function Hints(value: AnnotationValue): (hints: seq<Option<string>>)
    ensures value.SingleValue? ==> hints == [value.item]
    ensures value.ArrayValue? ==> hints == value.items
  {
    match value
    case ArrayValue(items) => items
    case SingleValue(item) => [item]
  }

  /** The errors a validator reports for a target and its hints. */
  type Validator = (Option<Body>, seq<Option<string>>) -> seq<string>

  /** The binding result after validate, and whether validate throws. */
  function Validated(parameter: MethodParameter, br: BindingResult, validator: Validator): (BindingResult, bool)
  {
    var v := FirstValidAnnotation(parameter.parameterAnnotations);
    if v.None? then (br, false)
    else
      var hints := Hints(parameter.parameterAnnotations[v.value].value);
      var after := br.(errors := br.errors + validator(br.target, hints));
      (after, |after.errors| > 0 && IsBindExceptionRequired(parameter))
  }

  /**
   * Validation runs once at most, with the hints of the first "Valid…" annotation; it
   * throws only when the binding result has errors and no `Errors` parameter follows.
   */
  lemma ValidationRules(parameter: MethodParameter, br: BindingResult, validator: Validator)
    ensures var (after, throws) := Validated(parameter, br, validator);
            (throws ==> |after.errors| > 0 && IsBindExceptionRequired(parameter))
            && (FirstValidAnnotation(parameter.parameterAnnotations).None? ==> after == br && !throws)
            && after.objectName == br.objectName && after.target == br.target
            && after.errors[..|br.errors|] == br.errors
  {
  }

  // ---------------------------------------------------------------- the mutable collaborators

  /** The data binder of one argument; its binding result collects validation errors. */
  class WebDataBinder {
    const validator: Validator
    var bindingResult: BindingResult

    constructor (target: Option<Body>, objectName: string, validator: Validator)
      ensures this.validator == validator && bindingResult == BindingResult(objectName, target, [])
    {
      this.validator := validator;
      bindingResult := BindingResult(objectName, target, []);
    }

    method Validate(hints: seq<Option<string>>)
      modifies this
      ensures bindingResult == old(bindingResult).(errors := old(bindingResult).errors + validator(bindingResult.target, hints))
    {
      bindingResult := bindingResult.(errors := bindingResult.errors + validator(bindingResult.target, hints));
    }
  }

  datatype ModelValue = BindingResultValue(br: BindingResult) | BodyValue(b: Body)

  class ModelAndViewContainer {
    var requestHandled: bool
    var model: map<string, ModelValue>

    constructor ()
      ensures !requestHandled && model == map[]
    {
      requestHandled := false;
      model := map[];
    }

    method AddAttribute(name: string, value: ModelValue)
      modifies this`model
      ensures model == old(model)[name := value]
    {
      model := model[name := value];
    }

    method SetRequestHandled(handled: bool)
      modifies this`requestHandled
      ensures requestHandled == handled
    {
      requestHandled := handled;
    }
  }

  /** The response body as written by the message converters. */
  class OutputMessage {
    var written: seq<Body>

    constructor ()
      ensures written == []
    {
      written := [];
    }
  }

  // ---------------------------------------------------------------- the processor

  /**
   * validate: the loop over the parameter's annotations stops at the first one whose
   * simple name starts with "Valid"; validation through that one may throw.
   */
  method Validate(binder: WebDataBinder, parameter: MethodParameter) returns (r: Option<ProcessorError>)
    modifies binder
    ensures var (after, throws) := Validated(parameter, old(binder.bindingResult), binder.validator);
            binder.bindingResult == after
            && (r.Some? <==> throws)
            && (r.Some? ==> r.value == MethodArgumentNotValid(parameter, after))
  {
    var annotations := parameter.parameterAnnotations;
    var i := 0;
    while i < |annotations|
      invariant 0 <= i <= |annotations|
      invariant forall k :: 0 <= k < i ==> !StartsWithValid(annotations[k].simpleName)
      invariant binder.bindingResult == old(binder.bindingResult)
    {
      var ann := annotations[i];
      if StartsWithValid(ann.simpleName) {
        binder.Validate(Hints(ann.value));
        var bindingResult := binder.bindingResult;
        if |bindingResult.errors| > 0 && IsBindExceptionRequired(parameter) {
          return Some(MethodArgumentNotValid(parameter, bindingResult));
        }
        break;
      }
      i := i + 1;
    }
    r := None;
  }

  /**
   * resolveArgument: read the body, create the binder, validate a non-null argument,
   * record the binding result in the model and return the argument.
   */
  method ResolveArgument(parameter: MethodParameter, mavContainer: ModelAndViewContainer,
                         read: Result<Option<Body>, ProcessorError>, variableName: string, validator: Validator)
    returns (r: Result<Option<Body>, ProcessorError>)
    modifies mavContainer`model
    ensures read.Failure? ==> r == read && mavContainer.model == old(mavContainer.model)
    ensures read.Success? ==>
              var initial := BindingResult(variableName, read.value, []);
              var (after, throws) := if read.value.Some? then Validated(parameter, initial, validator) else (initial, false);
              (throws ==> r == Failure(MethodArgumentNotValid(parameter, after)) && mavContainer.model == old(mavContainer.model))
              && (!throws ==> r == Success(read.value)
                              && mavContainer.model == old(mavContainer.model)[MODEL_KEY_PREFIX + variableName := BindingResultValue(after)])
  {
    if read.Failure? {
      return read;
    }
    var arg := read.value;
    var name := variableName;
    var binder := new WebDataBinder(arg, name, validator);
    if arg.Some? {
      var error := Validate(binder, parameter);
      if error.Some? {
        return Failure(error.value);
      }
    }
    mavContainer.AddAttribute(MODEL_KEY_PREFIX + name, BindingResultValue(binder.bindingResult));
    return Success(arg);
  }

  /** handleReturnValue: the request is handled in any case; only a non-null value is written. */
  method HandleReturnValue(returnValue: Option<Body>, mavContainer: ModelAndViewContainer, output: OutputMessage,
                           write: Body -> Option<ProcessorError>)
    returns (r: Option<ProcessorError>)
    modifies mavContainer`requestHandled, output
    ensures mavContainer.requestHandled
    ensures returnValue.None? ==> r.None? && output.written == old(output.written)
    ensures returnValue.Some? ==> r == write(returnValue.value)
    ensures returnValue.Some? && r.None? ==> output.written == old(output.written) + [returnValue.value]
    ensures r.Some? ==> output.written == old(output.written)
  {
    mavContainer.SetRequestHandled(true);
    r := None;
    if returnValue.Some? {
      r := write(returnValue.value);
      if r.None? {
        output.written := output.written + [returnValue.value];
      }
    }
  }

  /** A null argument is never validated: its binding result is recorded without errors. */
  method NullArgumentNotValidated(parameter: MethodParameter, variableName: string, validator: Validator)
    returns (model: map<string, ModelValue>)
    ensures model == map[MODEL_KEY_PREFIX + variableName := BindingResultValue(BindingResult(variableName, None, []))]
  {
    var container := new ModelAndViewContainer();
    var r := ResolveArgument(parameter, container, Success(None), variableName, validator);
    model := container.model;
  }
}
