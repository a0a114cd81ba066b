# Typed URL routing — registration and declaration core, in Dafny

This project models the deterministic core of a typed URL-routing library for ASP.NET MVC. The
core covers two things.

- **The declaration vocabulary (`Urls`, module `Urls` in `urls.dfy`).**
  - The HTTP verbs.
  - The three fixed string components: Slug `[-_0-9a-zA-Z]+`, PathComponent `[-_0-9a-zA-Z~+.,]+` and AnyString `.*`.
  - The arity-0..4 `Path` constructors, which accept only a simple path component before the last slot.
  - Query arguments (`Arg`), the `Get`/`Post`/`Put`/`Delete` request-pattern constructors (with body-typed variants only for POST and PUT), and the `Body` witness.
- **The route mapper (`ControllerRouteMapper<C>`, module `ControllerRouteMapping` in `controller_route_mapper.dfy`).**
  - Deriving the controller name by stripping one trailing `"Controller"`.
  - Checking that a handler reference has the shape `c => c.Action` and recovering the action's name.
  - The ten dispatch closures, one per arity (0 to 4), each with and without a request body.
  - The append-only registration of one route per `MapRoute` call, which returns the same mapper so that calls can be chained.

How the model is built:
- The two character classes are given by their bracket expressions. `ClassOf` reads them as lists of character spans, and lemmas prove that they denote exactly the reference predicates `IsSlug` and `IsPathComponent`.
- A handler reference is an abstract expression tree (`Expression`). `GetMethodInfo` is the source's three-step shape decision over it. `InvalidCast` is its own error, because a lambda whose body is not a unary node makes the source's cast throw before any `ArgumentException`.
- `ExtractParameters`, `DecodeBody` and the compiled handler are function values passed in. Each `DispatchN` composes them and records the steps it took (`ExtractParameters`, `DecodeBody`, `InvokeHandler`). `FollowsPlan` states the protocol: the steps taken are a prefix of the fixed plan, and the handler runs exactly when nothing failed.
- The mapper is a class. Its `routes` and `controllerName` are `const`, like the C# `readonly` fields. The route collection is a class whose `routes` sequence grows by one per successful registration. A failed handler check returns a `Failure` before anything is appended.
- C# exceptions are modelled as the `Result` type in `wrappers.dfy`.

Two points about how registration fails, taken from the code:
- Registration does not check the handler's parameter types at run time. The C# compiler does that through the `MapRoute` overloads. The model keeps only the arity and body-presence constraints, as `requires` clauses.
- A bad handler reference raises `ArgumentException` or `InvalidCastException`. Only the third check names the expression. It passes the expression's text as the exception's *parameter name*, so its message keeps a literal `{0}` (`MethodNameNotFoundMessage`).

## Model

| member | source | states |
|---|---|---|
| `Urls.String` | Dysphoria.Net.UrlRouting/Urls.cs:37-40 | a string component carries the regular-expression pattern it was given, unchanged |
| `Urls.Arg` | Dysphoria.Net.UrlRouting/Urls.cs:67-70 | a query argument keeps its name and its component unchanged |
| `Urls.ClassOf` | Dysphoria.Net.UrlRouting/Urls.cs:25-35 | `.*` denotes every string; a class is recognised only for a `[...]+` pattern whose body is plain (non-empty, not negated by `^`, no `\`, `[` or `]` inside), and a pattern that starts `[^` yields no class |
| `Urls.NegatedAndEscapedClassesAreOutsideModel` | Dysphoria.Net.UrlRouting/Urls.cs:37-40 | a component built with the negated class `[^/]+` or the escaped class `[\d]+` gets no class and no acceptance verdict, rather than a literal reading of its characters |
| `Urls.SlugClassSpans` | Dysphoria.Net.UrlRouting/Urls.cs:25 | Slug's pattern names exactly `-`, `_`, 0-9, a-z, A-Z |
| `Urls.PathComponentClassSpans` | Dysphoria.Net.UrlRouting/Urls.cs:30 | PathComponent's pattern names Slug's spans followed by exactly `~ + . ,` |
| `Urls.SlugAcceptsExactlySlugs` | Dysphoria.Net.UrlRouting/Urls.cs:21-25 | Slug accepts a string iff it is non-empty and every character is `-`, `_`, an ASCII digit or an ASCII letter |
| `Urls.PathComponentAcceptsExactlyPathComponents` | Dysphoria.Net.UrlRouting/Urls.cs:27-30 | PathComponent accepts a string iff it is non-empty and every character is a slug character or one of `~ + . ,` |
| `Urls.AnyStringAcceptsEverything` | Dysphoria.Net.UrlRouting/Urls.cs:32-35 | AnyString accepts every string, including the empty one and those containing `/` |
| `Urls.SlugRejectsEmpty` | Dysphoria.Net.UrlRouting/Urls.cs:25 | Slug rejects the empty string |
| `Urls.SlugIsPathComponent` | Dysphoria.Net.UrlRouting/Urls.cs:25-30 | every string Slug accepts, PathComponent accepts |
| `Urls.PathComponentIsSlugIffNoPunctuation` | Dysphoria.Net.UrlRouting/Urls.cs:25-30 | a valid path component is a slug iff it contains none of `~ + . ,` |
| `Urls.PathComponentStrictlyLarger` | Dysphoria.Net.UrlRouting/Urls.cs:25-30 | the inclusion is strict: `1.0` is a path component and not a slug |
| `Urls.AnyStringAsWrittenRejectsLineFeed` | Dysphoria.Net.UrlRouting/Urls.cs:32-35 | read as a .NET regex without Singleline, `.*` rejects `a\nb`, which the documented AnyString accepts |
| `Urls.Path0` | Dysphoria.Net.UrlRouting/Urls.cs:42-45 | keeps the template and has no placeholders |
| `Urls.Path1` | Dysphoria.Net.UrlRouting/Urls.cs:47-50 | keeps the template; one slot, which may be any URL argument |
| `Urls.Path2` | Dysphoria.Net.UrlRouting/Urls.cs:52-55 | keeps the template; slots in argument order, the first a simple component |
| `Urls.Path3` | Dysphoria.Net.UrlRouting/Urls.cs:57-60 | keeps the template; slots in argument order, all but the last simple components |
| `Urls.Path4` | Dysphoria.Net.UrlRouting/Urls.cs:62-65 | keeps the template; slots in argument order, all but the last simple components |
| `Urls.PathOverloadsBuildExactlyWellFormed` | Dysphoria.Net.UrlRouting/Urls.cs:42-65 | a slot list is accepted by some `Path` overload iff it has at most four slots and every slot but the last is simple; the result keeps template and slots |
| `Urls.Get` | Dysphoria.Net.UrlRouting/Urls.cs:77-80 | verb GET, the given URL pattern unchanged, no body |
| `Urls.Post` | Dysphoria.Net.UrlRouting/Urls.cs:82-85 | verb POST, the given URL pattern unchanged, no body |
| `Urls.PostWithBody` | Dysphoria.Net.UrlRouting/Urls.cs:87-90 | verb POST, the URL pattern unchanged, the given body witness |
| `Urls.Put` | Dysphoria.Net.UrlRouting/Urls.cs:92-95 | verb PUT, the given URL pattern unchanged, no body |
| `Urls.PutWithBody` | Dysphoria.Net.UrlRouting/Urls.cs:97-100 | verb PUT, the URL pattern unchanged, the given body witness |
| `Urls.Delete` | Dysphoria.Net.UrlRouting/Urls.cs:102-105 | verb DELETE, the given URL pattern unchanged, no body |
| `Urls.Body` | Dysphoria.Net.UrlRouting/Urls.cs:107-110 | the witness names the body type it was asked for |
| `Urls.DeclareCharacterised` | Dysphoria.Net.UrlRouting/Urls.cs:77-105 | a verb constructor exists for a body iff the verb is POST or PUT; every constructor keeps the verb, URL and body |
| `Urls.BodyVariantsOnlyAddTheBody` | Dysphoria.Net.UrlRouting/Urls.cs:82-100 | the body-typed POST/PUT differ from the body-less ones only by the body |
| `ControllerRouteMapping.GetControllerName` | Dysphoria.Net.UrlRouting/ControllerRouteMapper.cs:160-168 | the result is a prefix of the type name; when it differs, it is non-empty and result + "Controller" is the name; it is unchanged iff the name is not strictly longer than and ending with "Controller" |
| `ControllerRouteMapping.StripsAppendedSuffix` | Dysphoria.Net.UrlRouting/ControllerRouteMapper.cs:164-166 | for a non-empty stem, the name of stem + "Controller" is the stem |
| `ControllerRouteMapping.ControllerNameChangesIffSuffixed` | Dysphoria.Net.UrlRouting/ControllerRouteMapper.cs:160-168 | the name changes iff the type name is a non-empty stem followed by "Controller" |
| `ControllerRouteMapping.BareSuffixIsKept` | Dysphoria.Net.UrlRouting/ControllerRouteMapper.cs:164-167 | a type named exactly "Controller" keeps its name |
| `ControllerRouteMapping.OnlyOneSuffixIsStripped` | Dysphoria.Net.UrlRouting/ControllerRouteMapper.cs:164-166 | only one suffix is stripped, so deriving twice can differ from deriving once |
| `ControllerRouteMapping.GetMethodInfo` | Dysphoria.Net.UrlRouting/ControllerRouteMapper.cs:170-184 | the cast error occurs iff the lambda's body is not unary; an argument error with a parameter name is always the "cannot find method name" one, naming the expression's text |
| `ControllerRouteMapping.GetMethodInfoRecoversAction` | Dysphoria.Net.UrlRouting/ControllerRouteMapper.cs:175-183 | the tree of `c => c.Action` yields the method `Action` |
| `ControllerRouteMapping.GetMethodInfoAcceptsOnlyMethodGroups` | Dysphoria.Net.UrlRouting/ControllerRouteMapper.cs:170-184 | every accepted expression is such a method-group tree for the returned method |
| `ControllerRouteMapping.GetMethodInfoErrorOrder` | Dysphoria.Net.UrlRouting/ControllerRouteMapper.cs:172-182 | checks fail in order: not a lambda, then not a method call, then no constant method, each with its own message |
| `ControllerRouteMapping.FollowsPlanOrder` | Dysphoria.Net.UrlRouting/ControllerRouteMapper.cs:40-146 | a dispatch following its plan never decodes a body the pattern lacks, never extracts for arity 0, extracts first, and invokes the handler last |
| `ControllerRouteMapping.Dispatch0` | Dysphoria.Net.UrlRouting/ControllerRouteMapper.cs:40-44 | only the handler is invoked, with no arguments, and its result is returned |
| `ControllerRouteMapping.Dispatch0WithBody` | Dysphoria.Net.UrlRouting/ControllerRouteMapper.cs:46-54 | no extraction; the body is decoded, then the handler gets it; a decoding failure is returned and the handler is not invoked |
| `ControllerRouteMapping.Dispatch1` | Dysphoria.Net.UrlRouting/ControllerRouteMapper.cs:58-66 | parameters are extracted and never a body; the handler gets Item1; an extraction failure stops dispatch |
| `ControllerRouteMapping.Dispatch1WithBody` | Dysphoria.Net.UrlRouting/ControllerRouteMapper.cs:68-77 | extraction before decoding; the handler gets Item1 then the body; the first failure is returned and the handler is not invoked |
| `ControllerRouteMapping.Dispatch2` | Dysphoria.Net.UrlRouting/ControllerRouteMapper.cs:81-89 | no body decoding; the handler gets Item1, Item2 in order |
| `ControllerRouteMapping.Dispatch2WithBody` | Dysphoria.Net.UrlRouting/ControllerRouteMapper.cs:91-100 | extraction before decoding; the handler gets Item1, Item2, then the body |
| `ControllerRouteMapping.Dispatch3` | Dysphoria.Net.UrlRouting/ControllerRouteMapper.cs:104-112 | no body decoding; the handler gets Item1..Item3 in order |
| `ControllerRouteMapping.Dispatch3WithBody` | Dysphoria.Net.UrlRouting/ControllerRouteMapper.cs:114-123 | extraction before decoding; the handler gets Item1..Item3, then the body |
| `ControllerRouteMapping.Dispatch4` | Dysphoria.Net.UrlRouting/ControllerRouteMapper.cs:127-135 | no body decoding; the handler gets Item1..Item4 in order |
| `ControllerRouteMapping.Dispatch4WithBody` | Dysphoria.Net.UrlRouting/ControllerRouteMapper.cs:137-146 | extraction before decoding; the handler gets Item1..Item4, then the body |
| `ControllerRouteMapping.ControllerRouteMapper.constructor` | Dysphoria.Net.UrlRouting/ControllerRouteMapper.cs:30-34 | the mapper keeps the given collection and fixes the controller name derived from the type name (both `const`) |
| `ControllerRouteMapping.ControllerRouteMapper.AddRouteHandler` | Dysphoria.Net.UrlRouting/ControllerRouteMapper.cs:149-158 | succeeds iff the handler check does; on success returns this mapper and appends exactly one route (pattern, controller name, action name, closure), leaving earlier routes untouched; on failure returns the check's error and the collection is unchanged |
| `ControllerRouteMapping.ControllerRouteMapper.MapRoute0` | Dysphoria.Net.UrlRouting/ControllerRouteMapper.cs:40-44 | registers as AddRouteHandler does; the new route's closure behaves as `Dispatch0` |
| `ControllerRouteMapping.ControllerRouteMapper.MapRoute0WithBody` | Dysphoria.Net.UrlRouting/ControllerRouteMapper.cs:46-54 | registers as AddRouteHandler does; the new route's closure behaves as `Dispatch0WithBody` |
| `ControllerRouteMapping.ControllerRouteMapper.MapRoute1` | Dysphoria.Net.UrlRouting/ControllerRouteMapper.cs:58-66 | registers as AddRouteHandler does; the new route's closure behaves as `Dispatch1` |
| `ControllerRouteMapping.ControllerRouteMapper.MapRoute1WithBody` | Dysphoria.Net.UrlRouting/ControllerRouteMapper.cs:68-77 | registers as AddRouteHandler does; the new route's closure behaves as `Dispatch1WithBody` |
| `ControllerRouteMapping.ControllerRouteMapper.MapRoute2` | Dysphoria.Net.UrlRouting/ControllerRouteMapper.cs:81-89 | registers as AddRouteHandler does; the new route's closure behaves as `Dispatch2` |
| `ControllerRouteMapping.ControllerRouteMapper.MapRoute2WithBody` | Dysphoria.Net.UrlRouting/ControllerRouteMapper.cs:91-100 | registers as AddRouteHandler does; the new route's closure behaves as `Dispatch2WithBody` |
| `ControllerRouteMapping.ControllerRouteMapper.MapRoute3` | Dysphoria.Net.UrlRouting/ControllerRouteMapper.cs:104-112 | registers as AddRouteHandler does; the new route's closure behaves as `Dispatch3` |
| `ControllerRouteMapping.ControllerRouteMapper.MapRoute3WithBody` | Dysphoria.Net.UrlRouting/ControllerRouteMapper.cs:114-123 | registers as AddRouteHandler does; the new route's closure behaves as `Dispatch3WithBody` |
| `ControllerRouteMapping.ControllerRouteMapper.MapRoute4` | Dysphoria.Net.UrlRouting/ControllerRouteMapper.cs:127-135 | registers as AddRouteHandler does; the new route's closure behaves as `Dispatch4` |
| `ControllerRouteMapping.ControllerRouteMapper.MapRoute4WithBody` | Dysphoria.Net.UrlRouting/ControllerRouteMapper.cs:137-146 | registers as AddRouteHandler does; the new route's closure behaves as `Dispatch4WithBody` |
| `ControllerRouteMapping.RegisterInOrder` | Dysphoria.Net.UrlRouting/ControllerRouteMapper.cs:149-158 | for any two mappers sharing one collection (or one mapper, chained), two registrations append exactly their two routes in call order, each carrying its own mapper's controller name, the action its handler reference selects and its closure; the call succeeds iff both handler references pass the check; a rejected first reference appends nothing and returns its error, a rejected second one leaves only the first route |

## Findings

| source | as written | input that shows it | evidently intended | confidence | as-written member | corrected member |
|---|---|---|---|---|---|---|
| Dysphoria.Net.UrlRouting/Urls.cs:32-35 | AnyString is the pattern `.*`; in .NET regular expressions without the Singleline option, `.` does not match a line feed | the string `a\nb` | the documented "unconstrained string, including ... control characters" accepts every string | low, not executed: it depends on the regex options used where the component's pattern is applied, and that code is not part of this model | `Urls.AnyStringAsWrittenRejectsLineFeed` | `Urls.AnyStringAcceptsEverything` |

## Left out

- The `Bool`, `Int` and `NullableInt` components (Urls.cs:17-19) are not modelled. Their implementations (`BoolComponent`, `IntComponent`, `Or`) are not part of this model. A component other than a string component appears only as the opaque `OpaqueComponent`.
- `Query<T>()` (Urls.cs:72-75) is not modelled. It returns the `MvcQueryStringEncoding<T>` singleton, which is not part of this model.
- The URL template syntax is not modelled. Regular expressions are read only as `.*` or as `[...]+` over a plain bracket body of literal characters and ranges; any other pattern (a negated class, an escape such as `\d`, a nested or subtracted class, anchors, alternation) gets no verdict from `ClassOf`/`Accepts`. `ExtractParameters` and `DecodeBody` themselves are not modelled either. Those two are uninterpreted function parameters, and their errors pass through unchanged.
- The placeholders' value types `P1..P4` are erased in `UrlPattern`. The C# compiler's check that a handler's parameter types match the pattern is a `requires` on arity and body presence. The typed parameters reappear only in the dispatch functions.
- A one-placeholder pattern's `ExtractParameters` result (`Tuple<P1>`) is modelled as the bare value `Item1`.
- `handler.Compile()`, `MethodInfo` and `LambdaExpression` are .NET runtime machinery. They are represented by the `compiled` field of `HandlerReference` and the `Expression` datatype, and the two are not tied to each other.
- Exceptions thrown by the handler itself are not modelled: the handler returns its result. Null arguments are also not modelled. For example, a null handler would throw `NullReferenceException` in `Compile()` before the shape check.
- `GetControllerName` compares the suffix ordinally. The source calls the culture-sensitive `string.EndsWith(string)`. `Type.Name` is a plain string parameter.
- `RouteCollection` is ASP.NET's class. `ControllerRouteHandler` (namespace `Dysphoria.Net.UrlRouting.Handlers`, ControllerRouteMapper.cs:19) and the `AddRoute` extension method on `RouteCollection` live in parts of this library that are not part of this model. All three are modelled as a class holding a growing sequence of route records. `RouteCollection` is typed by one controller type, so a collection shared by mappers of different controller types is not modelled. The `Routes` property (ControllerRouteMapper.cs:36) is the public `const` field `routes`.
- `InvalidUrlArgumentException` (main/InvalidUrlArgumentException.cs) is the `InvalidUrlArgument` constructor of `RequestError`.
- Matching requests against the route table, and serving, are not part of this model.
