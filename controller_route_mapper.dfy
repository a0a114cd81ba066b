/**
 * The registration side of the routing library (`ControllerRouteMapper<C>`):
 * deriving a controller's route name from its type name, recovering an
 * action's name from a handler reference `c => c.Action`, composing the
 * dispatch closure for each URL arity with and without a request body, and
 * appending one route per registration to a shared route collection.
 *
 * The URL pattern's `ExtractParameters`, the request pattern's `DecodeBody`
 * and the compiled handler are not part of this model: they are passed in as
 * function values, and only the order and shape of their composition is
 * specified.
 */
module ControllerRouteMapping {
  import opened Wrappers
  import opened Urls

  // ---------------------------------------------------------------------------
  // Controller name
  // ---------------------------------------------------------------------------

  const ControllerSuffix: string := "Controller"

  predicate EndsWith(s: string, suffix: string) {
    |suffix| <= |s| && s[|s| - |suffix|..] == suffix
  }

  /**
   * The route name of a controller type: its name without a trailing
   * "Controller", unless the name is nothing but that suffix.
   */
  function GetControllerName(typeName: string): (name: string)
    ensures name <= typeName
    ensures name != typeName ==> |name| > 0 && name + ControllerSuffix == typeName
    ensures name == typeName <==> !(|typeName| > |ControllerSuffix| && EndsWith(typeName, ControllerSuffix))
  {
    var endsWithSuffix := |typeName| > |ControllerSuffix| && EndsWith(typeName, ControllerSuffix);
    if endsWithSuffix then typeName[..|typeName| - |ControllerSuffix|] else typeName
  }

  /** Appending the suffix to any non-empty stem and deriving the name gives the stem back. */
  lemma StripsAppendedSuffix(stem: string)
    requires stem != ""
    ensures GetControllerName(stem + ControllerSuffix) == stem
  {
    var typeName := stem + ControllerSuffix;
    assert typeName[|typeName| - |ControllerSuffix|..] == ControllerSuffix;
    assert typeName[..|typeName| - |ControllerSuffix|] == stem;
  }

  /** The name changes exactly when it is a non-empty stem followed by "Controller". */
  lemma ControllerNameChangesIffSuffixed(typeName: string)
    ensures GetControllerName(typeName) != typeName
        <==> exists stem :: stem != "" && typeName == stem + ControllerSuffix
  {
    var name := GetControllerName(typeName);
    if name != typeName {
      assert name != "" && typeName == name + ControllerSuffix;
    }
    if stem :| stem != "" && typeName == stem + ControllerSuffix {
      StripsAppendedSuffix(stem);
      assert |stem| < |typeName|;
    }
  }

  /** A type named exactly "Controller" keeps its name. */
  lemma BareSuffixIsKept()
    ensures GetControllerName(ControllerSuffix) == ControllerSuffix
  {
  }

  /** Only one suffix is stripped: deriving a name is not idempotent. */
  lemma OnlyOneSuffixIsStripped()
    ensures GetControllerName("HomeControllerController") == "HomeController"
    ensures GetControllerName(GetControllerName("HomeControllerController")) == "Home"
  {
    StripsAppendedSuffix("HomeController");
    StripsAppendedSuffix("Home");
    assert "HomeController" + ControllerSuffix == "HomeControllerController";
    assert "Home" + ControllerSuffix == "HomeController";
  }

  // ---------------------------------------------------------------------------
  // Handler references
  // ---------------------------------------------------------------------------

  /** A reflected method; only its name is used. */
  datatype MethodInfo = MethodInfo(name: string)

  /** The value a constant expression holds. */
  datatype ConstantValue = MethodInfoConstant(info: MethodInfo) | NullConstant | OtherConstant

  /**
   * The expression-tree nodes the handler check looks at: lambdas, unary nodes
   * (such as a conversion), method calls with their optional target object,
   * constants, parameters, and any other node kind.
   */
  datatype Expression =
    | Lambda(body: Expression)
    | Unary(operand: Expression)
    | MethodCall(callee: MethodInfo, target: Option<Expression>, arguments: seq<Expression>)
    | Constant(value: ConstantValue)
    | Parameter(name: string)
    | OtherExpression

  /**
   * A handler reference as the caller writes it: its expression tree, the text
   * the tree prints as, and the delegate it compiles to.
   */
  datatype HandlerReference<F> = HandlerReference(expression: Expression, text: string, compiled: F)

  /**
   * Registration failures: an `ArgumentException` with its message and its
   * parameter name, or the `InvalidCastException` raised when a lambda's body
   * is not a unary node.
   */
  datatype RegistrationError =
    | ArgumentError(message: string, paramName: Option<string>)
    | InvalidCast

  const NotALambdaMessage: string := "Argument is not a lambda expression (c => c.Thing)"
  const NotInCorrectFormMessage: string := "Argument not in correct form (c => c.Thing)"
  /** The third check passes the expression's text as the parameter name, so "{0}" is never filled in. */
  const MethodNameNotFoundMessage: string := "Cannot find method name in expression: {0}"

  /**
   * The method a handler reference selects: the lambda's body must be a unary
   * node whose operand is a method call whose target is a constant holding a
   * method.
   */
  function GetMethodInfo(e: Expression, text: string): (r: Result<MethodInfo, RegistrationError>)
    ensures r == Failure(InvalidCast) <==> e.Lambda? && !e.body.Unary?
    ensures r.Failure? && r.error.ArgumentError? && r.error.paramName.Some? ==>
              r.error == ArgumentError(MethodNameNotFoundMessage, Some(text))
  {
    if !e.Lambda? then Failure(ArgumentError(NotALambdaMessage, None))
    else if !e.body.Unary? then Failure(InvalidCast)
    else if !e.body.operand.MethodCall? then Failure(ArgumentError(NotInCorrectFormMessage, None))
    else match e.body.operand.target
      case Some(Constant(MethodInfoConstant(info))) => Success(info)
      case _ => Failure(ArgumentError(MethodNameNotFoundMessage, Some(text)))
  }

  /**
   * The tree the compiler builds for `c => c.Action` when `Action` is converted
   * to a delegate: a lambda whose body converts the result of `createDelegate`
   * called on a constant holding `Action`.
   */
  function MethodGroupReference(action: MethodInfo, createDelegate: MethodInfo, arguments: seq<Expression>): Expression {
    Lambda(Unary(MethodCall(createDelegate, Some(Constant(MethodInfoConstant(action))), arguments)))
  }

  /** A method-group reference yields the referenced method, whatever its printed form. */
  lemma GetMethodInfoRecoversAction(action: MethodInfo, createDelegate: MethodInfo, arguments: seq<Expression>, text: string)
    ensures GetMethodInfo(MethodGroupReference(action, createDelegate, arguments), text) == Success(action)
  {
  }

  /** ... and nothing else succeeds: every accepted expression is a method-group reference. */
  lemma GetMethodInfoAcceptsOnlyMethodGroups(e: Expression, text: string)
    requires GetMethodInfo(e, text).Success?
    ensures exists createDelegate, arguments ::
              e == MethodGroupReference(GetMethodInfo(e, text).value, createDelegate, arguments)
  {
    var call := e.body.operand;
    assert e == MethodGroupReference(GetMethodInfo(e, text).value, call.callee, call.arguments);
  }

  /** The failing check decides the error: not a lambda, then not a method call, then no constant method. */
  lemma GetMethodInfoErrorOrder(e: Expression, text: string)
    ensures !e.Lambda? ==> GetMethodInfo(e, text) == Failure(ArgumentError(NotALambdaMessage, None))
    ensures e.Lambda? && e.body.Unary? && !e.body.operand.MethodCall? ==>
              GetMethodInfo(e, text) == Failure(ArgumentError(NotInCorrectFormMessage, None))
    ensures e.Lambda? && e.body.Unary? && e.body.operand.MethodCall? && GetMethodInfo(e, text).Failure? ==>
              GetMethodInfo(e, text) == Failure(ArgumentError(MethodNameNotFoundMessage, Some(text)))
  {
  }

  // ---------------------------------------------------------------------------
  // Dispatch closures
  // ---------------------------------------------------------------------------

  /** A failure raised while a request is dispatched, by parameter extraction or body decoding. */
  datatype RequestError = InvalidUrlArgument(message: string) | RequestFailure(message: string)

  /** The observable steps of a dispatch closure. */
  datatype Step = ExtractParameters | DecodeBody | InvokeHandler

  /** What one run of a dispatch closure returns, with the steps it took in order. */
  datatype Dispatched<R> = Dispatched(outcome: Result<R, RequestError>, steps: seq<Step>)

  /** The steps a dispatch closure takes when nothing fails. */
  function Plan(extracts: bool, decodes: bool): seq<Step> {
    (if extracts then [ExtractParameters] else []) + (if decodes then [DecodeBody] else []) + [InvokeHandler]
  }

  /**
   * The dispatch protocol: the steps taken are a non-empty prefix of the plan,
   * and the handler is invoked (the whole plan is taken) exactly when the
   * outcome is a success.
   */
  ghost predicate FollowsPlan<R>(d: Dispatched<R>, extracts: bool, decodes: bool) {
    |d.steps| > 0 && d.steps <= Plan(extracts, decodes) &&
    (d.outcome.Success? <==> d.steps == Plan(extracts, decodes))
  }

  /**
   * A dispatch that follows its plan never decodes a body the pattern does not
   * declare and never extracts parameters from a 0-arity pattern; it extracts
   * before it decodes, and it invokes the handler last.
   */
  lemma {:induction false} FollowsPlanOrder<R>(d: Dispatched<R>, extracts: bool, decodes: bool)
    requires FollowsPlan(d, extracts, decodes)
    ensures !decodes ==> DecodeBody !in d.steps
    ensures !extracts ==> ExtractParameters !in d.steps
    ensures extracts ==> d.steps[0] == ExtractParameters
    ensures forall i :: 0 <= i < |d.steps| && d.steps[i] == InvokeHandler ==> i == |d.steps| - 1
  {
    var plan := Plan(extracts, decodes);
    assert d.steps == plan[..|d.steps|];
    forall i | 0 <= i < |d.steps| && d.steps[i] == InvokeHandler
      ensures i == |d.steps| - 1
    {
      assert plan[i] == InvokeHandler;
      assert i == |plan| - 1;
    }
  }

  function Dispatch0<C, Ctx, R>(action: C -> () -> R, c: C, context: Ctx): (d: Dispatched<R>)
    ensures FollowsPlan(d, false, false)
    ensures d.outcome == Success(action(c)())
  {
    Dispatched(Success(action(c)()), [InvokeHandler])
  }

  function Dispatch0WithBody<C, Ctx, R, B>(
    decodeBody: Ctx -> Result<B, RequestError>, action: C -> B -> R, c: C, context: Ctx): (d: Dispatched<R>)
    ensures FollowsPlan(d, false, true)
    ensures d.outcome.Success? <==> decodeBody(context).Success?
    ensures d.outcome.Success? ==> d.outcome.value == action(c)(decodeBody(context).value)
    ensures d.outcome.Failure? ==> d.outcome.error == decodeBody(context).error
  {
    match decodeBody(context)
    case Failure(e) => Dispatched(Failure(e), [DecodeBody])
    case Success(body) => Dispatched(Success(action(c)(body)), [DecodeBody, InvokeHandler])
  }

  function Dispatch1<C, Ctx, R, P1>(
    extract: Ctx -> Result<P1, RequestError>, action: C -> P1 -> R, c: C, context: Ctx): (d: Dispatched<R>)
    ensures FollowsPlan(d, true, false)
    ensures d.outcome.Success? <==> extract(context).Success?
    ensures d.outcome.Success? ==> d.outcome.value == action(c)(extract(context).value)
    ensures d.outcome.Failure? ==> d.outcome.error == extract(context).error
  {
    match extract(context)
    case Failure(e) => Dispatched(Failure(e), [ExtractParameters])
    case Success(p) => Dispatched(Success(action(c)(p)), [ExtractParameters, InvokeHandler])
  }

  function Dispatch1WithBody<C, Ctx, R, P1, B>(
    extract: Ctx -> Result<P1, RequestError>, decodeBody: Ctx -> Result<B, RequestError>,
    action: C -> (P1, B) -> R, c: C, context: Ctx): (d: Dispatched<R>)
    ensures FollowsPlan(d, true, true)
    ensures d.outcome.Success? <==> extract(context).Success? && decodeBody(context).Success?
    ensures d.outcome.Success? ==>
              d.outcome.value == action(c)(extract(context).value, decodeBody(context).value)
    ensures extract(context).Failure? ==> d.outcome.error == extract(context).error
    ensures extract(context).Success? && d.outcome.Failure? ==> d.outcome.error == decodeBody(context).error
  {
    match extract(context)
    case Failure(e) => Dispatched(Failure(e), [ExtractParameters])
    case Success(p) =>
      match decodeBody(context)
      case Failure(e) => Dispatched(Failure(e), [ExtractParameters, DecodeBody])
      case Success(body) => Dispatched(Success(action(c)(p, body)), [ExtractParameters, DecodeBody, InvokeHandler])
  }

  function Dispatch2<C, Ctx, R, P1, P2>(
    extract: Ctx -> Result<(P1, P2), RequestError>, action: C -> (P1, P2) -> R, c: C, context: Ctx): (d: Dispatched<R>)
    ensures FollowsPlan(d, true, false)
    ensures d.outcome.Success? <==> extract(context).Success?
    ensures d.outcome.Success? ==>
              var p := extract(context).value;
              d.outcome.value == action(c)(p.0, p.1)
    ensures d.outcome.Failure? ==> d.outcome.error == extract(context).error
  {
    match extract(context)
    case Failure(e) => Dispatched(Failure(e), [ExtractParameters])
    case Success(p) => Dispatched(Success(action(c)(p.0, p.1)), [ExtractParameters, InvokeHandler])
  }

  function Dispatch2WithBody<C, Ctx, R, P1, P2, B>(
    extract: Ctx -> Result<(P1, P2), RequestError>, decodeBody: Ctx -> Result<B, RequestError>,
    action: C -> (P1, P2, B) -> R, c: C, context: Ctx): (d: Dispatched<R>)
    ensures FollowsPlan(d, true, true)
    ensures d.outcome.Success? <==> extract(context).Success? && decodeBody(context).Success?
    ensures d.outcome.Success? ==>
              var p := extract(context).value;
              d.outcome.value == action(c)(p.0, p.1, decodeBody(context).value)
    ensures extract(context).Failure? ==> d.outcome.error == extract(context).error
    ensures extract(context).Success? && d.outcome.Failure? ==> d.outcome.error == decodeBody(context).error
  {
    match extract(context)
    case Failure(e) => Dispatched(Failure(e), [ExtractParameters])
    case Success(p) =>
      match decodeBody(context)
      case Failure(e) => Dispatched(Failure(e), [ExtractParameters, DecodeBody])
      case Success(body) =>
        Dispatched(Success(action(c)(p.0, p.1, body)), [ExtractParameters, DecodeBody, InvokeHandler])
  }

  function Dispatch3<C, Ctx, R, P1, P2, P3>(
    extract: Ctx -> Result<(P1, P2, P3), RequestError>, action: C -> (P1, P2, P3) -> R,
    c: C, context: Ctx): (d: Dispatched<R>)
    ensures FollowsPlan(d, true, false)
    ensures d.outcome.Success? <==> extract(context).Success?
    ensures d.outcome.Success? ==>
              var p := extract(context).value;
              d.outcome.value == action(c)(p.0, p.1, p.2)
    ensures d.outcome.Failure? ==> d.outcome.error == extract(context).error
  {
    match extract(context)
    case Failure(e) => Dispatched(Failure(e), [ExtractParameters])
    case Success(p) => Dispatched(Success(action(c)(p.0, p.1, p.2)), [ExtractParameters, InvokeHandler])
  }

  function Dispatch3WithBody<C, Ctx, R, P1, P2, P3, B>(
    extract: Ctx -> Result<(P1, P2, P3), RequestError>, decodeBody: Ctx -> Result<B, RequestError>,
    action: C -> (P1, P2, P3, B) -> R, c: C, context: Ctx): (d: Dispatched<R>)
    ensures FollowsPlan(d, true, true)
    ensures d.outcome.Success? <==> extract(context).Success? && decodeBody(context).Success?
    ensures d.outcome.Success? ==>
              var p := extract(context).value;
              d.outcome.value == action(c)(p.0, p.1, p.2, decodeBody(context).value)
    ensures extract(context).Failure? ==> d.outcome.error == extract(context).error
    ensures extract(context).Success? && d.outcome.Failure? ==> d.outcome.error == decodeBody(context).error
  {
    match extract(context)
    case Failure(e) => Dispatched(Failure(e), [ExtractParameters])
    case Success(p) =>
      match decodeBody(context)
      case Failure(e) => Dispatched(Failure(e), [ExtractParameters, DecodeBody])
      case Success(body) =>
        Dispatched(Success(action(c)(p.0, p.1, p.2, body)), [ExtractParameters, DecodeBody, InvokeHandler])
  }

  function Dispatch4<C, Ctx, R, P1, P2, P3, P4>(
    extract: Ctx -> Result<(P1, P2, P3, P4), RequestError>, action: C -> (P1, P2, P3, P4) -> R,
    c: C, context: Ctx): (d: Dispatched<R>)
    ensures FollowsPlan(d, true, false)
    ensures d.outcome.Success? <==> extract(context).Success?
    ensures d.outcome.Success? ==>
              var p := extract(context).value;
              d.outcome.value == action(c)(p.0, p.1, p.2, p.3)
    ensures d.outcome.Failure? ==> d.outcome.error == extract(context).error
  {
    match extract(context)
    case Failure(e) => Dispatched(Failure(e), [ExtractParameters])
    case Success(p) => Dispatched(Success(action(c)(p.0, p.1, p.2, p.3)), [ExtractParameters, InvokeHandler])
  }

  function Dispatch4WithBody<C, Ctx, R, P1, P2, P3, P4, B>(
    extract: Ctx -> Result<(P1, P2, P3, P4), RequestError>, decodeBody: Ctx -> Result<B, RequestError>,
    action: C -> (P1, P2, P3, P4, B) -> R, c: C, context: Ctx): (d: Dispatched<R>)
    ensures FollowsPlan(d, true, true)
    ensures d.outcome.Success? <==> extract(context).Success? && decodeBody(context).Success?
    ensures d.outcome.Success? ==>
              var p := extract(context).value;
              d.outcome.value == action(c)(p.0, p.1, p.2, p.3, decodeBody(context).value)
    ensures extract(context).Failure? ==> d.outcome.error == extract(context).error
    ensures extract(context).Success? && d.outcome.Failure? ==> d.outcome.error == decodeBody(context).error
  {
    match extract(context)
    case Failure(e) => Dispatched(Failure(e), [ExtractParameters])
    case Success(p) =>
      match decodeBody(context)
      case Failure(e) => Dispatched(Failure(e), [ExtractParameters, DecodeBody])
      case Success(body) =>
        Dispatched(Success(action(c)(p.0, p.1, p.2, p.3, body)), [ExtractParameters, DecodeBody, InvokeHandler])
  }

  // ---------------------------------------------------------------------------
  // Routes and the mapper
  // ---------------------------------------------------------------------------

  /** The route handler stored with a route: what it serves and the closure it runs. */
  datatype ControllerRouteHandler<!C, !Ctx, R> = ControllerRouteHandler(
    pattern: RequestPattern, controllerName: string, actionName: string,
    handlerFunction: (C, Ctx) -> Dispatched<R>)

  datatype Route<!C, !Ctx, R> = Route(pattern: RequestPattern, handler: ControllerRouteHandler<C, Ctx, R>)

  /** The application's route collection: an ordered list that registrations append to. */
  class RouteCollection<C, Ctx, R> {
    var routes: seq<Route<C, Ctx, R>>

    constructor()
      ensures routes == []
    {
      routes := [];
    }

    method AddRoute(pattern: RequestPattern, handler: ControllerRouteHandler<C, Ctx, R>)
      modifies this
      ensures routes == old(routes) + [Route(pattern, handler)]
    {
      routes := routes + [Route(pattern, handler)];
    }
  }

  /**
   * Registers the actions of one controller type into a route collection that
   * other mappers may share. Both fields are fixed at construction.
   */
  class ControllerRouteMapper<C(!new), Ctx(!new), R> {
    const routes: RouteCollection<C, Ctx, R>
    const controllerName: string

    constructor(routes: RouteCollection<C, Ctx, R>, controllerTypeName: string)
      ensures this.routes == routes
      ensures controllerName == GetControllerName(controllerTypeName)
    {
      this.routes := routes;
      this.controllerName := GetControllerName(controllerTypeName);
    }

    /**
     * The outcome of one registration: it succeeds exactly when the handler
     * reference names a method; on success it returns this mapper and `after`
     * is `before` with one route appended for the pattern, this controller and
     * the method's name; on failure it reports the handler check's error and
     * the collection is unchanged.
     */
    ghost predicate Registered(
      r: Result<ControllerRouteMapper<C, Ctx, R>, RegistrationError>,
      before: seq<Route<C, Ctx, R>>, after: seq<Route<C, Ctx, R>>,
      pattern: RequestPattern, handler: Expression, handlerText: string)
    {
      var info := GetMethodInfo(handler, handlerText);
      && (r.Success? <==> info.Success?)
      && (r.Success? ==>
            && r.value == this
            && |after| == |before| + 1 && after[..|before|] == before
            && after[|before|].pattern == pattern
            && after[|before|].handler.pattern == pattern
            && after[|before|].handler.controllerName == controllerName
            && after[|before|].handler.actionName == info.value.name)
      && (r.Failure? ==> r.error == info.error && after == before)
    }

    /** Whether the last route's closure behaves as `dispatch` on every controller and request. */
    ghost predicate LastDispatchesAs(after: seq<Route<C, Ctx, R>>, dispatch: (C, Ctx) -> Dispatched<R>) {
      |after| > 0 &&
      forall c, context :: after[|after| - 1].handler.handlerFunction(c, context) == dispatch(c, context)
    }

    method AddRouteHandler(
      pattern: RequestPattern, handler: Expression, handlerText: string,
      handlerFunction: (C, Ctx) -> Dispatched<R>)
      returns (r: Result<ControllerRouteMapper<C, Ctx, R>, RegistrationError>)
      modifies routes
      ensures Registered(r, old(routes.routes), routes.routes, pattern, handler, handlerText)
      ensures r.Success? ==> routes.routes[|routes.routes| - 1].handler.handlerFunction == handlerFunction
    {
      var info :- GetMethodInfo(handler, handlerText);
      var actionName := info.name;
      routes.AddRoute(pattern, ControllerRouteHandler(pattern, controllerName, actionName, handlerFunction));
      return Success(this);
    }

    method MapRoute0(pattern: RequestPattern, handler: HandlerReference<C -> () -> R>)
      returns (r: Result<ControllerRouteMapper<C, Ctx, R>, RegistrationError>)
      requires pattern.body.None? && Arity(pattern.url) == 0
      modifies routes
      ensures Registered(r, old(routes.routes), routes.routes, pattern, handler.expression, handler.text)
      ensures r.Success? ==>
                LastDispatchesAs(routes.routes, (c, context) => Dispatch0(handler.compiled, c, context))
    {
      var action := handler.compiled;
      r := AddRouteHandler(pattern, handler.expression, handler.text,
                           (c, context) => Dispatch0(action, c, context));
    }

    method MapRoute0WithBody<B>(
      pattern: RequestPattern, decodeBody: Ctx -> Result<B, RequestError>, handler: HandlerReference<C -> B -> R>)
      returns (r: Result<ControllerRouteMapper<C, Ctx, R>, RegistrationError>)
      requires pattern.body.Some? && Arity(pattern.url) == 0
      modifies routes
      ensures Registered(r, old(routes.routes), routes.routes, pattern, handler.expression, handler.text)
      ensures r.Success? ==>
                LastDispatchesAs(routes.routes, (c, context) => Dispatch0WithBody(decodeBody, handler.compiled, c, context))
    {
      var action := handler.compiled;
      r := AddRouteHandler(pattern, handler.expression, handler.text,
                           (c, context) => Dispatch0WithBody(decodeBody, action, c, context));
    }

    method MapRoute1<P1>(
      pattern: RequestPattern, extract: Ctx -> Result<P1, RequestError>, handler: HandlerReference<C -> P1 -> R>)
      returns (r: Result<ControllerRouteMapper<C, Ctx, R>, RegistrationError>)
      requires pattern.body.None? && Arity(pattern.url) == 1
      modifies routes
      ensures Registered(r, old(routes.routes), routes.routes, pattern, handler.expression, handler.text)
      ensures r.Success? ==>
                LastDispatchesAs(routes.routes, (c, context) => Dispatch1(extract, handler.compiled, c, context))
    {
      var action := handler.compiled;
      r := AddRouteHandler(pattern, handler.expression, handler.text,
                           (c, context) => Dispatch1(extract, action, c, context));
    }

    method MapRoute1WithBody<P1, B>(
      pattern: RequestPattern, extract: Ctx -> Result<P1, RequestError>,
      decodeBody: Ctx -> Result<B, RequestError>, handler: HandlerReference<C -> (P1, B) -> R>)
      returns (r: Result<ControllerRouteMapper<C, Ctx, R>, RegistrationError>)
      requires pattern.body.Some? && Arity(pattern.url) == 1
      modifies routes
      ensures Registered(r, old(routes.routes), routes.routes, pattern, handler.expression, handler.text)
      ensures r.Success? ==>
                LastDispatchesAs(routes.routes,
                                 (c, context) => Dispatch1WithBody(extract, decodeBody, handler.compiled, c, context))
    {
      var action := handler.compiled;
      r := AddRouteHandler(pattern, handler.expression, handler.text,
                           (c, context) => Dispatch1WithBody(extract, decodeBody, action, c, context));
    }

    method MapRoute2<P1, P2>(
      pattern: RequestPattern, extract: Ctx -> Result<(P1, P2), RequestError>,
      handler: HandlerReference<C -> (P1, P2) -> R>)
      returns (r: Result<ControllerRouteMapper<C, Ctx, R>, RegistrationError>)
      requires pattern.body.None? && Arity(pattern.url) == 2
      modifies routes
      ensures Registered(r, old(routes.routes), routes.routes, pattern, handler.expression, handler.text)
      ensures r.Success? ==>
                LastDispatchesAs(routes.routes, (c, context) => Dispatch2(extract, handler.compiled, c, context))
    {
      var action := handler.compiled;
      r := AddRouteHandler(pattern, handler.expression, handler.text,
                           (c, context) => Dispatch2(extract, action, c, context));
    }

    method MapRoute2WithBody<P1, P2, B>(
      pattern: RequestPattern, extract: Ctx -> Result<(P1, P2), RequestError>,
      decodeBody: Ctx -> Result<B, RequestError>, handler: HandlerReference<C -> (P1, P2, B) -> R>)
      returns (r: Result<ControllerRouteMapper<C, Ctx, R>, RegistrationError>)
      requires pattern.body.Some? && Arity(pattern.url) == 2
      modifies routes
      ensures Registered(r, old(routes.routes), routes.routes, pattern, handler.expression, handler.text)
      ensures r.Success? ==>
                LastDispatchesAs(routes.routes,
                                 (c, context) => Dispatch2WithBody(extract, decodeBody, handler.compiled, c, context))
    {
      var action := handler.compiled;
      r := AddRouteHandler(pattern, handler.expression, handler.text,
                           (c, context) => Dispatch2WithBody(extract, decodeBody, action, c, context));
    }

    method MapRoute3<P1, P2, P3>(
      pattern: RequestPattern, extract: Ctx -> Result<(P1, P2, P3), RequestError>,
      handler: HandlerReference<C -> (P1, P2, P3) -> R>)
      returns (r: Result<ControllerRouteMapper<C, Ctx, R>, RegistrationError>)
      requires pattern.body.None? && Arity(pattern.url) == 3
      modifies routes
      ensures Registered(r, old(routes.routes), routes.routes, pattern, handler.expression, handler.text)
      ensures r.Success? ==>
                LastDispatchesAs(routes.routes, (c, context) => Dispatch3(extract, handler.compiled, c, context))
    {
      var action := handler.compiled;
      r := AddRouteHandler(pattern, handler.expression, handler.text,
                           (c, context) => Dispatch3(extract, action, c, context));
    }

    method MapRoute3WithBody<P1, P2, P3, B>(
      pattern: RequestPattern, extract: Ctx -> Result<(P1, P2, P3), RequestError>,
      decodeBody: Ctx -> Result<B, RequestError>, handler: HandlerReference<C -> (P1, P2, P3, B) -> R>)
      returns (r: Result<ControllerRouteMapper<C, Ctx, R>, RegistrationError>)
      requires pattern.body.Some? && Arity(pattern.url) == 3
      modifies routes
      ensures Registered(r, old(routes.routes), routes.routes, pattern, handler.expression, handler.text)
      ensures r.Success? ==>
                LastDispatchesAs(routes.routes,
                                 (c, context) => Dispatch3WithBody(extract, decodeBody, handler.compiled, c, context))
    {
      var action := handler.compiled;
      r := AddRouteHandler(pattern, handler.expression, handler.text,
                           (c, context) => Dispatch3WithBody(extract, decodeBody, action, c, context));
    }

    method MapRoute4<P1, P2, P3, P4>(
      pattern: RequestPattern, extract: Ctx -> Result<(P1, P2, P3, P4), RequestError>,
      handler: HandlerReference<C -> (P1, P2, P3, P4) -> R>)
      returns (r: Result<ControllerRouteMapper<C, Ctx, R>, RegistrationError>)
      requires pattern.body.None? && Arity(pattern.url) == 4
      modifies routes
      ensures Registered(r, old(routes.routes), routes.routes, pattern, handler.expression, handler.text)
      ensures r.Success? ==>
                LastDispatchesAs(routes.routes, (c, context) => Dispatch4(extract, handler.compiled, c, context))
    {
      var action := handler.compiled;
      r := AddRouteHandler(pattern, handler.expression, handler.text,
                           (c, context) => Dispatch4(extract, action, c, context));
    }

    method MapRoute4WithBody<P1, P2, P3, P4, B>(
      pattern: RequestPattern, extract: Ctx -> Result<(P1, P2, P3, P4), RequestError>,
      decodeBody: Ctx -> Result<B, RequestError>, handler: HandlerReference<C -> (P1, P2, P3, P4, B) -> R>)
      returns (r: Result<ControllerRouteMapper<C, Ctx, R>, RegistrationError>)
      requires pattern.body.Some? && Arity(pattern.url) == 4
      modifies routes
      ensures Registered(r, old(routes.routes), routes.routes, pattern, handler.expression, handler.text)
      ensures r.Success? ==>
                LastDispatchesAs(routes.routes,
                                 (c, context) => Dispatch4WithBody(extract, decodeBody, handler.compiled, c, context))
    {
      var action := handler.compiled;
      r := AddRouteHandler(pattern, handler.expression, handler.text,
                           (c, context) => Dispatch4WithBody(extract, decodeBody, action, c, context));
    }
  }

  /**
   * Two registrations, by two mappers that share one route collection (or by
   * one mapper, chained on the mapper the first call returns): they append
   * their routes in call order, each labelled with its own mapper's controller
   * name and the action its handler reference selects. A rejected handler
   * reference stops the chain, as the exception does in the source, and
   * leaves only the routes registered before it.
   */
  method RegisterInOrder<C(!new), Ctx(!new), R>(
    first: ControllerRouteMapper<C, Ctx, R>, second: ControllerRouteMapper<C, Ctx, R>,
    pattern1: RequestPattern, handler1: Expression, text1: string, function1: (C, Ctx) -> Dispatched<R>,
    pattern2: RequestPattern, handler2: Expression, text2: string, function2: (C, Ctx) -> Dispatched<R>)
    returns (r: Result<ControllerRouteMapper<C, Ctx, R>, RegistrationError>)
    requires first.routes == second.routes
    modifies first.routes
    ensures var info1 := GetMethodInfo(handler1, text1);
            var info2 := GetMethodInfo(handler2, text2);
      && (r.Success? <==> info1.Success? && info2.Success?)
      && (info1.Failure? ==> r == Failure(info1.error) && first.routes.routes == old(first.routes.routes))
      && (info1.Success? ==>
            var route1 := Route(pattern1, ControllerRouteHandler(pattern1, first.controllerName, info1.value.name, function1));
            && (info2.Failure? ==>
                  r == Failure(info2.error) && first.routes.routes == old(first.routes.routes) + [route1])
            && (info2.Success? ==>
                  var route2 := Route(pattern2, ControllerRouteHandler(pattern2, second.controllerName, info2.value.name, function2));
                  r == Success(second) && first.routes.routes == old(first.routes.routes) + [route1, route2]))
  {
    ghost var before := first.routes.routes;
    var _ :- first.AddRouteHandler(pattern1, handler1, text1, function1);
    ghost var middle := first.routes.routes;
    assert middle == before + [middle[|before|]];
    r := second.AddRouteHandler(pattern2, handler2, text2, function2);
    if r.Success? {
      assert first.routes.routes == middle + [first.routes.routes[|middle|]];
    }
  }
}
