/**
 * The declaration vocabulary of the routing library (the static members of
 * `Urls`): HTTP verbs, the three fixed string components Slug, PathComponent
 * and AnyString, the arity-0..4 `Path` constructors, query arguments, and the
 * request-pattern constructors with and without a typed body.
 */
module Urls {
  import opened Wrappers

  datatype HttpMethod = GET | POST | PUT | DELETE

  // ---------------------------------------------------------------------------
  // Components
  // ---------------------------------------------------------------------------

  /**
   * A path component (`SimpleUrlComponent<T>` / `PathComponent<T>`): either a
   * string component constrained by a regular-expression pattern, or one of the
   * library's other components (Bool, Int, Or(...)), whose encode/decode rules
   * are not part of this model and which is known here by name only.
   */
  datatype Component = StringComponent(regexPattern: string) | OpaqueComponent(name: string)

  /** A named query-string argument backed by a component (`QueryArg<T>`). */
  datatype QueryArg = QueryArg(name: string, component: Component)

  /**
   * What may fill a placeholder slot of a `Path` (`UrlArgument<T>`): a simple
   * path component, or a query argument, which only the last slot accepts.
   */
  datatype UrlArgument = Simple(component: Component) | Query(arg: QueryArg)

  /** `String(regexPattern)`: a string component that carries its pattern unchanged. */
  function String(regexPattern: string): (c: Component)
    ensures c.StringComponent? && c.regexPattern == regexPattern
  {
    StringComponent(regexPattern)
  }

  /** `Arg(name, type)`: a query argument that keeps its name and its component. */
  function Arg(name: string, component: Component): (a: UrlArgument)
    ensures a.Query? && a.arg.name == name && a.arg.component == component
  {
    Query(QueryArg(name, component))
  }

  // ---------------------------------------------------------------------------
  // The three fixed character classes
  // ---------------------------------------------------------------------------

  const SlugPattern: string := "[-_0-9a-zA-Z]+"
  const PathComponentPattern: string := "[-_0-9a-zA-Z~+.,]+"
  const AnyStringPattern: string := ".*"

  const Slug: Component := String(SlugPattern)
  const PathComponent: Component := String(PathComponentPattern)
  const AnyString: Component := String(AnyStringPattern)

  /** Reference definition of a slug character: `-`, `_`, an ASCII digit or an ASCII letter. */
  predicate IsSlugChar(ch: char) {
    ch == '-' || ch == '_' || '0' <= ch <= '9' || 'a' <= ch <= 'z' || 'A' <= ch <= 'Z'
  }

  /** Reference definition of a path-component character: a slug character or one of `~ + . ,`. */
  predicate IsPathComponentChar(ch: char) {
    IsSlugChar(ch) || ch == '~' || ch == '+' || ch == '.' || ch == ','
  }

  predicate IsSlug(s: string) {
    |s| > 0 && forall i :: 0 <= i < |s| ==> IsSlugChar(s[i])
  }

  predicate IsPathComponent(s: string) {
    |s| > 0 && forall i :: 0 <= i < |s| ==> IsPathComponentChar(s[i])
  }

  /** An inclusive range of characters inside a bracket expression; a single character is `lo == hi`. */
  datatype CharSpan = CharSpan(lo: char, hi: char)

  predicate InSpans(spans: seq<CharSpan>, ch: char) {
    exists k :: 0 <= k < |spans| && spans[k].lo <= ch <= spans[k].hi
  }

  /** The language of a `[...]+` character class or of `.*`. */
  datatype CharClass = OneOrMore(spans: seq<CharSpan>) | Anything

  predicate Matches(cls: CharClass, s: string) {
    match cls
    case Anything => true
    case OneOrMore(spans) => |s| > 0 && forall i :: 0 <= i < |s| ==> InSpans(spans, s[i])
  }

  /**
   * The spans named by the inside of a bracket expression: `x-y` is a range,
   * any other character stands for itself (so a leading or trailing `-` is literal).
   * Only meaningful for a plain body (see PlainBracketBody).
   */
  function BracketSpans(body: string): seq<CharSpan>
    decreases |body|
  {
    if |body| == 0 then []
    else if |body| >= 3 && body[1] == '-' then [CharSpan(body[0], body[2])] + BracketSpans(body[3..])
    else [CharSpan(body[0], body[0])] + BracketSpans(body[1..])
  }

  /**
   * A bracket body made only of literal characters and ranges: not empty, not
   * negated by a leading `^`, and free of escapes, nested or subtracted classes
   * and inner brackets, whose .NET meaning BracketSpans does not give.
   */
  predicate PlainBracketBody(body: string) {
    && |body| > 0
    && body[0] != '^'
    && forall i :: 0 <= i < |body| ==> body[i] != '\\' && body[i] != '[' && body[i] != ']'
  }

  /**
   * The character class a component pattern denotes, for the two pattern shapes
   * the library declares (`.*`, and `[...]+` over a plain bracket body); any other
   * pattern is outside the model and yields None.
   */
  function ClassOf(regexPattern: string): (r: Option<CharClass>)
    ensures regexPattern == AnyStringPattern ==> r == Some(Anything)
    ensures r.Some? && r.value.OneOrMore? ==>
              && |regexPattern| >= 3 && regexPattern[0] == '[' && regexPattern[|regexPattern| - 2..] == "]+"
              && PlainBracketBody(regexPattern[1..|regexPattern| - 2])
    ensures (|regexPattern| >= 3 && regexPattern[0] == '[' && regexPattern[1] == '^') ==> r.None?
  {
    if regexPattern == ".*" then Some(Anything)
    else if |regexPattern| >= 3 && regexPattern[0] == '[' && regexPattern[|regexPattern| - 2..] == "]+"
            && PlainBracketBody(regexPattern[1..|regexPattern| - 2]) then
      Some(OneOrMore(BracketSpans(regexPattern[1..|regexPattern| - 2])))
    else None
  }

  /** Whether a string component accepts `s`; None for components outside the model. */
  function Accepts(c: Component, s: string): Option<bool> {
    match c
    case StringComponent(p) => if ClassOf(p).Some? then Some(Matches(ClassOf(p).value, s)) else None
    case OpaqueComponent(_) => None
  }

  /**
   * A negated class and a class with an escape are not read as literal lists:
   * no string component with such a pattern is given an acceptance verdict.
   */
  lemma NegatedAndEscapedClassesAreOutsideModel(s: string)
    ensures ClassOf("[^/]+") == None && Accepts(String("[^/]+"), s) == None
    ensures ClassOf("[\\d]+") == None && Accepts(String("[\\d]+"), s) == None
  {
    var escaped := "[\\d]+";
    assert escaped[1..|escaped| - 2][0] == '\\';
  }

  const SlugSpans: seq<CharSpan> :=
    [CharSpan('-', '-'), CharSpan('_', '_'), CharSpan('0', '9'), CharSpan('a', 'z'), CharSpan('A', 'Z')]

  const PunctuationSpans: seq<CharSpan> :=
    [CharSpan('~', '~'), CharSpan('+', '+'), CharSpan('.', '.'), CharSpan(',', ',')]

  /** Slug's bracket expression names `-`, `_` and the three ranges 0-9, a-z, A-Z. */
  lemma SlugClassSpans()
    ensures ClassOf(SlugPattern) == Some(OneOrMore(SlugSpans))
  {
    var body := "-_0-9a-zA-Z";
    assert SlugPattern[1..|SlugPattern| - 2] == body;
    assert SlugPattern != ".*" && SlugPattern[0] == '[' && SlugPattern[|SlugPattern| - 2..] == "]+";
    assert PlainBracketBody(body);
    assert BracketSpans(body[8..]) == [CharSpan('A', 'Z')] by {
      assert body[8..][3..] == [];
    }
    assert BracketSpans(body[5..]) == [CharSpan('a', 'z'), CharSpan('A', 'Z')] by {
      assert body[5..][3..] == body[8..];
    }
    assert BracketSpans(body[2..]) == SlugSpans[2..] by {
      assert body[2..][3..] == body[5..];
    }
    assert BracketSpans(body[1..]) == SlugSpans[1..] by {
      assert body[1..][1..] == body[2..];
    }
    assert BracketSpans(body) == [CharSpan('-', '-')] + BracketSpans(body[1..]);
    assert BracketSpans(body) == SlugSpans;
    assert ClassOf(SlugPattern) == Some(OneOrMore(BracketSpans(body)));
  }

  lemma PunctuationBracketSpans()
    ensures BracketSpans("~+.,") == PunctuationSpans
  {
    var body := "~+.,";
    assert BracketSpans(body[3..]) == PunctuationSpans[3..] by {
      assert body[3..][1..] == [];
    }
    assert BracketSpans(body[2..]) == PunctuationSpans[2..] by {
      assert body[2..][1..] == body[3..];
    }
    assert BracketSpans(body[1..]) == PunctuationSpans[1..] by {
      assert body[1..][1..] == body[2..];
    }
    assert BracketSpans(body) == [PunctuationSpans[0]] + BracketSpans(body[1..]);
  }

  lemma PathComponentRangesSpans()
    ensures BracketSpans("0-9a-zA-Z~+.,") == (SlugSpans + PunctuationSpans)[2..]
  {
    var body := "0-9a-zA-Z~+.,";
    var spans := (SlugSpans + PunctuationSpans)[2..];
    assert BracketSpans(body[9..]) == spans[3..] by {
      assert body[9..] == "~+.,";
      PunctuationBracketSpans();
    }
    assert BracketSpans(body[6..]) == spans[2..] by {
      assert body[6..][3..] == body[9..];
    }
    assert BracketSpans(body[3..]) == spans[1..] by {
      assert body[3..][3..] == body[6..];
    }
    assert BracketSpans(body) == [spans[0]] + BracketSpans(body[3..]);
  }

  /** PathComponent's bracket expression names Slug's spans followed by `~ + . ,`. */
  lemma PathComponentClassSpans()
    ensures ClassOf(PathComponentPattern) == Some(OneOrMore(SlugSpans + PunctuationSpans))
  {
    var body := "-_0-9a-zA-Z~+.,";
    var spans := SlugSpans + PunctuationSpans;
    assert PathComponentPattern[1..|PathComponentPattern| - 2] == body;
    assert PathComponentPattern != ".*";
    assert PathComponentPattern[0] == '[';
    assert PathComponentPattern[|PathComponentPattern| - 2..] == "]+";
    assert PlainBracketBody(body);
    assert BracketSpans(body[2..]) == spans[2..] by {
      assert body[2..] == "0-9a-zA-Z~+.,";
      PathComponentRangesSpans();
    }
    assert BracketSpans(body[1..]) == spans[1..] by {
      assert body[1..][1..] == body[2..];
    }
    assert BracketSpans(body) == [CharSpan('-', '-')] + BracketSpans(body[1..]);
    assert BracketSpans(body) == spans;
    assert ClassOf(PathComponentPattern) == Some(OneOrMore(BracketSpans(body)));
  }

  lemma {:induction false} InSpansConcat(a: seq<CharSpan>, b: seq<CharSpan>, ch: char)
    ensures InSpans(a + b, ch) <==> InSpans(a, ch) || InSpans(b, ch)
  {
    if InSpans(a + b, ch) {
      var k :| 0 <= k < |a + b| && (a + b)[k].lo <= ch <= (a + b)[k].hi;
      if k >= |a| {
        assert b[k - |a|] == (a + b)[k];
      }
    }
    if InSpans(a, ch) {
      var k :| 0 <= k < |a| && a[k].lo <= ch <= a[k].hi;
      assert (a + b)[k] == a[k];
    }
    if InSpans(b, ch) {
      var k :| 0 <= k < |b| && b[k].lo <= ch <= b[k].hi;
      assert (a + b)[|a| + k] == b[k];
    }
  }

  lemma SlugSpansAreSlugChars(ch: char)
    ensures InSpans(SlugSpans, ch) <==> IsSlugChar(ch)
  {
    if ch == '-' { assert SlugSpans[0].lo <= ch <= SlugSpans[0].hi; }
    else if ch == '_' { assert SlugSpans[1].lo <= ch <= SlugSpans[1].hi; }
    else if '0' <= ch <= '9' { assert SlugSpans[2].lo <= ch <= SlugSpans[2].hi; }
    else if 'a' <= ch <= 'z' { assert SlugSpans[3].lo <= ch <= SlugSpans[3].hi; }
    else if 'A' <= ch <= 'Z' { assert SlugSpans[4].lo <= ch <= SlugSpans[4].hi; }
  }

  lemma PunctuationSpansArePunctuation(ch: char)
    ensures InSpans(PunctuationSpans, ch) <==> ch == '~' || ch == '+' || ch == '.' || ch == ','
  {
    if ch == '~' { assert PunctuationSpans[0].lo <= ch <= PunctuationSpans[0].hi; }
    else if ch == '+' { assert PunctuationSpans[1].lo <= ch <= PunctuationSpans[1].hi; }
    else if ch == '.' { assert PunctuationSpans[2].lo <= ch <= PunctuationSpans[2].hi; }
    else if ch == ',' { assert PunctuationSpans[3].lo <= ch <= PunctuationSpans[3].hi; }
  }

  /** Slug accepts exactly the non-empty strings over `-`, `_`, digits and ASCII letters. */
  lemma SlugAcceptsExactlySlugs(s: string)
    ensures Accepts(Slug, s) == Some(IsSlug(s))
  {
    SlugClassSpans();
    forall ch ensures InSpans(SlugSpans, ch) <==> IsSlugChar(ch) {
      SlugSpansAreSlugChars(ch);
    }
  }

  /** PathComponent accepts exactly the non-empty strings over the slug characters and `~ + . ,`. */
  lemma PathComponentAcceptsExactlyPathComponents(s: string)
    ensures Accepts(PathComponent, s) == Some(IsPathComponent(s))
  {
    PathComponentClassSpans();
    forall ch ensures InSpans(SlugSpans + PunctuationSpans, ch) <==> IsPathComponentChar(ch) {
      InSpansConcat(SlugSpans, PunctuationSpans, ch);
      SlugSpansAreSlugChars(ch);
      PunctuationSpansArePunctuation(ch);
    }
  }

  /** AnyString accepts every string, the empty one and those holding `/` included. */
  lemma AnyStringAcceptsEverything(s: string)
    ensures Accepts(AnyString, s) == Some(true)
  {
  }

  lemma SlugRejectsEmpty()
    ensures Accepts(Slug, "") == Some(false)
  {
    SlugAcceptsExactlySlugs("");
  }

  /** Every string Slug accepts, PathComponent accepts too. */
  lemma SlugIsPathComponent(s: string)
    requires Accepts(Slug, s) == Some(true)
    ensures Accepts(PathComponent, s) == Some(true)
  {
    SlugAcceptsExactlySlugs(s);
    PathComponentAcceptsExactlyPathComponents(s);
  }

  /** ... but not the reverse: a string PathComponent accepts is a slug exactly when it holds none of `~ + . ,`. */
  lemma PathComponentIsSlugIffNoPunctuation(s: string)
    requires Accepts(PathComponent, s) == Some(true)
    ensures Accepts(Slug, s) == Some(true) <==> forall i :: 0 <= i < |s| ==> s[i] !in {'~', '+', '.', ','}
  {
    SlugAcceptsExactlySlugs(s);
    PathComponentAcceptsExactlyPathComponents(s);
  }

  lemma PathComponentStrictlyLarger()
    ensures Accepts(PathComponent, "1.0") == Some(true) && Accepts(Slug, "1.0") == Some(false)
  {
    SlugAcceptsExactlySlugs("1.0");
    PathComponentAcceptsExactlyPathComponents("1.0");
    assert !IsSlugChar("1.0"[1]);
  }

  /**
   * `.*` as .NET's regular-expression engine reads it without the Singleline
   * option: `.` stands for every character except the line feed.
   */
  predicate DotStarMatchesAsWritten(s: string) {
    forall i :: 0 <= i < |s| ==> s[i] != '\n'
  }

  /** The documented "unconstrained string" and the `.*` pattern disagree on a line feed. */
  lemma AnyStringAsWrittenRejectsLineFeed()
    ensures !DotStarMatchesAsWritten("a\nb") && Accepts(AnyString, "a\nb") == Some(true)
  {
    assert "a\nb"[1] == '\n';
  }

  // ---------------------------------------------------------------------------
  // URL patterns
  // ---------------------------------------------------------------------------

  /**
   * A URL template with its ordered placeholder slots (`UrlPattern`,
   * `UrlPattern<P1>` ... `UrlPattern<P1, P2, P3, P4>`). The placeholders' value
   * types are erased: the slot order is what the model keeps.
   */
  datatype UrlPattern = UrlPattern(template: string, placeholders: seq<UrlArgument>)

  function Arity(u: UrlPattern): nat {
    |u.placeholders|
  }

  /** At most four slots, and every slot but the last holds a simple path component. */
  predicate WellFormedPlaceholders(ps: seq<UrlArgument>) {
    |ps| <= 4 && forall i :: 0 <= i < |ps| - 1 ==> ps[i].Simple?
  }

  function Path0(pattern: string): (u: UrlPattern)
    ensures u.template == pattern && Arity(u) == 0
  {
    UrlPattern(pattern, [])
  }

  function Path1(pattern: string, p1: UrlArgument): (u: UrlPattern)
    ensures u.template == pattern && Arity(u) == 1 && WellFormedPlaceholders(u.placeholders)
    ensures u.placeholders[0] == p1
  {
    UrlPattern(pattern, [p1])
  }

  function Path2(pattern: string, p1: Component, p2: UrlArgument): (u: UrlPattern)
    ensures u.template == pattern && Arity(u) == 2 && WellFormedPlaceholders(u.placeholders)
    ensures u.placeholders[0] == Simple(p1) && u.placeholders[1] == p2
  {
    UrlPattern(pattern, [Simple(p1), p2])
  }

  function Path3(pattern: string, p1: Component, p2: Component, p3: UrlArgument): (u: UrlPattern)
    ensures u.template == pattern && Arity(u) == 3 && WellFormedPlaceholders(u.placeholders)
    ensures u.placeholders[0] == Simple(p1) && u.placeholders[1] == Simple(p2) && u.placeholders[2] == p3
  {
    UrlPattern(pattern, [Simple(p1), Simple(p2), p3])
  }

  function Path4(pattern: string, p1: Component, p2: Component, p3: Component, p4: UrlArgument): (u: UrlPattern)
    ensures u.template == pattern && Arity(u) == 4 && WellFormedPlaceholders(u.placeholders)
    ensures u.placeholders[0] == Simple(p1) && u.placeholders[1] == Simple(p2)
    ensures u.placeholders[2] == Simple(p3) && u.placeholders[3] == p4
  {
    UrlPattern(pattern, [Simple(p1), Simple(p2), Simple(p3), p4])
  }

  /**
   * Overload resolution over the `Path` family: the pattern a call with these
   * slot arguments builds, or None when no overload takes them.
   */
  function PathOf(pattern: string, args: seq<UrlArgument>): Option<UrlPattern> {
    if |args| == 0 then Some(Path0(pattern))
    else if |args| == 1 then Some(Path1(pattern, args[0]))
    else if |args| == 2 && args[0].Simple? then Some(Path2(pattern, args[0].component, args[1]))
    else if |args| == 3 && args[0].Simple? && args[1].Simple? then
      Some(Path3(pattern, args[0].component, args[1].component, args[2]))
    else if |args| == 4 && args[0].Simple? && args[1].Simple? && args[2].Simple? then
      Some(Path4(pattern, args[0].component, args[1].component, args[2].component, args[3]))
    else None
  }

  /**
   * The `Path` overloads build exactly the well-formed slot lists, and keep the
   * template and every slot in argument order.
   */
  lemma PathOverloadsBuildExactlyWellFormed(pattern: string, args: seq<UrlArgument>)
    ensures PathOf(pattern, args).Some? <==> WellFormedPlaceholders(args)
    ensures PathOf(pattern, args).Some? ==> PathOf(pattern, args).value == UrlPattern(pattern, args)
  {
    if |args| == 2 && args[0].Simple? {
      assert args == [Simple(args[0].component), args[1]];
    } else if |args| == 3 && args[0].Simple? && args[1].Simple? {
      assert args == [Simple(args[0].component), Simple(args[1].component), args[2]];
    } else if |args| == 4 && args[0].Simple? && args[1].Simple? && args[2].Simple? {
      assert args == [Simple(args[0].component), Simple(args[1].component), Simple(args[2].component), args[3]];
    } else if |args| == 1 {
      assert args == [args[0]];
    } else if 2 <= |args| <= 4 {
      assert !WellFormedPlaceholders(args) by {
        if !args[0].Simple? {
          assert !args[0].Simple?;
        } else if !args[1].Simple? {
          assert !args[1].Simple?;
        } else {
          assert !args[2].Simple?;
        }
      }
    }
  }

  // ---------------------------------------------------------------------------
  // Request patterns
  // ---------------------------------------------------------------------------

  /** A marker for the request body's type (`TypeWitness<T>`), known by the type's name. */
  datatype TypeWitness = TypeWitness(typeName: string)

  /** `RequestPattern<U>` (body None) and `RequestPattern<U, BodyType>` (body Some). */
  datatype RequestPattern = RequestPattern(verb: HttpMethod, url: UrlPattern, body: Option<TypeWitness>)

  /** `Body<T>()`: the witness of the body type. */
  function Body(typeName: string): (w: TypeWitness)
    ensures w.typeName == typeName
  {
    TypeWitness(typeName)
  }

  function Get(url: UrlPattern): (r: RequestPattern)
    ensures r.verb == GET && r.url == url && r.body.None?
  {
    RequestPattern(GET, url, None)
  }

  function Post(url: UrlPattern): (r: RequestPattern)
    ensures r.verb == POST && r.url == url && r.body.None?
  {
    RequestPattern(POST, url, None)
  }

  function PostWithBody(body: TypeWitness, url: UrlPattern): (r: RequestPattern)
    ensures r.verb == POST && r.url == url && r.body == Some(body)
  {
    RequestPattern(POST, url, Some(body))
  }

  function Put(url: UrlPattern): (r: RequestPattern)
    ensures r.verb == PUT && r.url == url && r.body.None?
  {
    RequestPattern(PUT, url, None)
  }

  function PutWithBody(body: TypeWitness, url: UrlPattern): (r: RequestPattern)
    ensures r.verb == PUT && r.url == url && r.body == Some(body)
  {
    RequestPattern(PUT, url, Some(body))
  }

  function Delete(url: UrlPattern): (r: RequestPattern)
    ensures r.verb == DELETE && r.url == url && r.body.None?
  {
    RequestPattern(DELETE, url, None)
  }

  /**
   * Overload resolution over the verb constructors: the request pattern a call
   * of the verb's constructor builds, or None when the verb has no body-typed
   * overload and a body is given.
   */
  function Declare(verb: HttpMethod, body: Option<TypeWitness>, url: UrlPattern): Option<RequestPattern> {
    match (verb, body)
    case (GET, None) => Some(Get(url))
    case (POST, None) => Some(Post(url))
    case (POST, Some(b)) => Some(PostWithBody(b, url))
    case (PUT, None) => Some(Put(url))
    case (PUT, Some(b)) => Some(PutWithBody(b, url))
    case (DELETE, None) => Some(Delete(url))
    case (_, Some(_)) => None
  }

  /**
   * Every verb has a body-less constructor; only POST and PUT have a body-typed
   * one. Whatever is built carries the verb, the URL and the body unchanged.
   */
  lemma DeclareCharacterised(verb: HttpMethod, body: Option<TypeWitness>, url: UrlPattern)
    ensures Declare(verb, body, url).Some? <==> body.None? || verb == POST || verb == PUT
    ensures Declare(verb, body, url).Some? ==> Declare(verb, body, url).value == RequestPattern(verb, url, body)
  {
  }

  /** The body witness changes neither the verb nor the URL of POST and PUT. */
  lemma BodyVariantsOnlyAddTheBody(body: TypeWitness, url: UrlPattern)
    ensures PostWithBody(body, url) == Post(url).(body := Some(body))
    ensures PutWithBody(body, url) == Put(url).(body := Some(body))
  {
  }
}
