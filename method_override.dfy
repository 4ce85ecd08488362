/**
 * The method-override middleware: a request-processing step that lets a client send a
 * request with one HTTP method (POST by default) and name the effective method in a
 * header, a query parameter or a form field.
 *
 * Configuration is a pure function of the caller's options; the per-request handler is a
 * method that updates the request's `originalMethod` and `method` fields in place.
 */
module MethodOverride {
  import opened Wrappers
  import opened Ascii
  import opened Strings

  // ---------------------------------------------------------------------------
  // Configuration
  // ---------------------------------------------------------------------------

  /** The caller's options object (`transportMethod` is the `method` option); `None` is an option the caller did not supply. */
  datatype Options = Options(transportMethod: Option<string>, tokenLookup: Option<string>)

  /** The options after the module defaults have been filled in. */
  datatype Settings = Settings(transportMethod: string, tokenLookup: string)

  /** Where the override token is read from. */
  datatype Source = Header | Form | Query

  /** `tokenLookup` taken apart at its colons: the source kind and the field name, if any. */
  datatype TokenLookup = TokenLookup(via: string, field: Option<string>)

  /** What the factory binds for the handler: the eligible method, the extractor and its field. */
  datatype Config = Config(transportMethod: string, source: Source, field: Option<string>)

  const DefaultMethod: string := "POST"
  const DefaultTokenLookup: string := "header" + ":" + DefaultHeaderName
  const DefaultHeaderName: string := "X-HTTP-Method-Override"

  /** Calling the factory with no argument is calling it with an empty options object. */
  const NoOptions: Options := Options(None, None)

  /** `Object.assign({}, defaults, options)`: each supplied option wins over its default. */
  function Merge(options: Options): (s: Settings)
    ensures options.transportMethod.Some? ==> s.transportMethod == options.transportMethod.value
    ensures options.transportMethod.None? ==> s.transportMethod == DefaultMethod
    ensures options.tokenLookup.Some? ==> s.tokenLookup == options.tokenLookup.value
    ensures options.tokenLookup.None? ==> s.tokenLookup == DefaultTokenLookup
  {
    Settings(
      if options.transportMethod.Some? then options.transportMethod.value else DefaultMethod,
      if options.tokenLookup.Some? then options.tokenLookup.value else DefaultTokenLookup)
  }

  /**
   * `const [via, field] = tokenLookup.split(':')`: the kind is the text before the first
   * colon, the field the text between the first and the second colon; the rest is dropped,
   * and without a colon there is no field.
   */
  function ParseTokenLookup(s: string): (t: TokenLookup)
    ensures ':' !in t.via
    ensures t.field.None? <==> ':' !in s
    ensures t.field.None? ==> t.via == s
    ensures t.field.Some? ==> ':' !in t.field.value && IsFirstPiece(s, t.via + ":" + t.field.value, ':')
  {
    var parts := Split(s, ':');
    SplitPiecesAreSeparatorFree(s, ':');
    if ':' in s then
      SplitFirstTwo(s, ':');
      TokenLookup(parts[0], Some(parts[1]))
    else
      TokenLookup(parts[0], None)
  }

  /** The extractor the `switch` binds: `form` and `query` by name, the header for any other kind. */
  function SelectSource(via: string): (src: Source)
    ensures src == Form <==> via == "form"
    ensures src == Query <==> via == "query"
    ensures src == Header <==> via != "form" && via != "query"
  {
    if via == "form" then Form else if via == "query" then Query else Header
  }

  /** The factory: merge the options over the defaults, parse `tokenLookup`, bind the extractor. */
  function Configure(options: Options): (c: Config)
    ensures c.transportMethod == Merge(options).transportMethod
    ensures c.field.None? <==> ':' !in Merge(options).tokenLookup
    ensures c.source == Form <==> ParseTokenLookup(Merge(options).tokenLookup).via == "form"
    ensures c.source == Query <==> ParseTokenLookup(Merge(options).tokenLookup).via == "query"
  {
    var settings := Merge(options);
    var lookup := ParseTokenLookup(settings.tokenLookup);
    Config(settings.transportMethod, SelectSource(lookup.via), lookup.field)
  }

  // ---------------------------------------------------------------------------
  // Requests and extractors
  // ---------------------------------------------------------------------------

  /** A snapshot of the request fields the middleware reads and writes (`currentMethod` is `req.method`). */
  datatype RequestState = RequestState(
    currentMethod: string,
    originalMethod: Option<string>,
    headers: map<string, string>,
    query: map<string, string>,
    body: map<string, string>)

  /** JavaScript truthiness of a string-or-undefined value. */
  predicate Truthy(v: Option<string>): (b: bool)
    ensures v == None ==> !b
    ensures v == Some("") ==> !b
    ensures b <==> v.Some? && |v.value| > 0
  {
    v.Some? && v.value != ""
  }

  /** The property name JavaScript uses for `obj[field]`; `undefined` becomes "undefined". */
  function PropertyKey(field: Option<string>): string {
    if field.Some? then field.value else "undefined"
  }

  /** Reads `key` of a string map, `undefined` when it is missing. */
  function Lookup(m: map<string, string>, key: string): (v: Option<string>)
    ensures v.Some? <==> key in m
    ensures v.Some? ==> v.value == m[key]
  {
    if key in m then Some(m[key]) else None
  }

  /** `req.get(header)`; a missing header name reads nothing. */
  function MethodFromHeader(header: Option<string>, req: RequestState): (v: Option<string>)
    ensures v.Some? <==> header.Some? && header.value in req.headers
    ensures v.Some? ==> v.value == req.headers[header.value]
  {
    if header.Some? then Lookup(req.headers, header.value) else None
  }

  /** `req.body[param]`. */
  function MethodFromForm(param: Option<string>, req: RequestState): (v: Option<string>)
    ensures v.Some? <==> PropertyKey(param) in req.body
    ensures v.Some? ==> v.value == req.body[PropertyKey(param)]
  {
    Lookup(req.body, PropertyKey(param))
  }

  /** `req.query[param]`. */
  function MethodFromQuery(param: Option<string>, req: RequestState): (v: Option<string>)
    ensures v.Some? <==> PropertyKey(param) in req.query
    ensures v.Some? ==> v.value == req.query[PropertyKey(param)]
  {
    Lookup(req.query, PropertyKey(param))
  }

  /** The bound extractor applied to a request; it reads only the map its source names. */
  function Extract(c: Config, req: RequestState): (v: Option<string>)
    ensures c.source == Header ==> v == (if c.field.Some? then Lookup(req.headers, c.field.value) else None)
    ensures c.source == Form ==> v == Lookup(req.body, PropertyKey(c.field))
    ensures c.source == Query ==> v == Lookup(req.query, PropertyKey(c.field))
  {
    match c.source
    case Header => MethodFromHeader(c.field, req)
    case Form => MethodFromForm(c.field, req)
    case Query => MethodFromQuery(c.field, req)
  }

  /** The extractor reads only the map its source names: requests that agree there give the same token. */
  lemma ExtractReadsOnlySelectedMap(c: Config, a: RequestState, b: RequestState)
    requires c.source == Header ==> a.headers == b.headers
    requires c.source == Form ==> a.body == b.body
    requires c.source == Query ==> a.query == b.query
    ensures Extract(c, a) == Extract(c, b)
  {
  }

  // ---------------------------------------------------------------------------
  // The per-request step
  // ---------------------------------------------------------------------------

  /** `req.originalMethod || req.method`: the cached original method once the handler has run. */
  function Original(req: RequestState): (o: Option<string>)
    ensures Truthy(req.originalMethod) ==> o == req.originalMethod
    ensures !Truthy(req.originalMethod) ==> o == Some(req.currentMethod)
  {
    if Truthy(req.originalMethod) then req.originalMethod else Some(req.currentMethod)
  }

  /** The request is eligible when its original method is exactly the configured one. */
  predicate Eligible(c: Config, req: RequestState): (b: bool)
    ensures Truthy(req.originalMethod) ==> (b <==> req.originalMethod.value == c.transportMethod)
    ensures !Truthy(req.originalMethod) ==> (b <==> req.currentMethod == c.transportMethod)
  {
    Original(req) == Some(c.transportMethod)
  }

  /** What one run of the handler leaves in the request. */
  function Step(c: Config, req: RequestState): (r: RequestState)
    ensures r.headers == req.headers && r.query == req.query && r.body == req.body
    ensures r.originalMethod == Original(req)
  {
    var token := Extract(c, req);
    var current := if Eligible(c, req) && Truthy(token) then ToUpper(token.value) else req.currentMethod;
    req.(currentMethod := current, originalMethod := Original(req))
  }

  /** A request object whose fields the handler updates in place. */
  class Request {
    var currentMethod: string
    var originalMethod: Option<string>
    var headers: map<string, string>
    var query: map<string, string>
    var body: map<string, string>

    constructor (currentMethod: string, headers: map<string, string>, query: map<string, string>, body: map<string, string>)
      ensures State() == RequestState(currentMethod, None, headers, query, body)
    {
      this.currentMethod := currentMethod;
      this.originalMethod := None;
      this.headers := headers;
      this.query := query;
      this.body := body;
    }

    function State(): RequestState
      reads this
    {
      RequestState(currentMethod, originalMethod, headers, query, body)
    }
  }

  /**
   * The handler the factory returns: cache the original method, then, for an eligible
   * request whose extractor yields a non-empty token, replace the method by the token in
   * upper case. It writes only `originalMethod` and `method` (here `currentMethod`).
   */
  method Handle(c: Config, req: Request)
    modifies req`originalMethod, req`currentMethod
    ensures req.State() == Step(c, old(req.State()))
  {
    req.originalMethod := if Truthy(req.originalMethod) then req.originalMethod else Some(req.currentMethod);
    if Some(c.transportMethod) == req.originalMethod {
      var m := Extract(c, req.State());
      if Truthy(m) {
        req.currentMethod := ToUpper(m.value);
      }
    }
  }

  // ---------------------------------------------------------------------------
  // Properties of the configuration
  // ---------------------------------------------------------------------------

  /** With no options: method POST, the header extractor, field X-HTTP-Method-Override. */
  lemma DefaultConfiguration()
    ensures Configure(NoOptions) == Config("POST", Header, Some("X-HTTP-Method-Override"))
  {
    DefaultLookupParses();
    ConfigureFromLookup(NoOptions, TokenLookup("header", Some(DefaultHeaderName)));
  }

  /** The factory's result in terms of the merged options and the parsed lookup string. */
  lemma ConfigureFromLookup(options: Options, lookup: TokenLookup)
    requires ParseTokenLookup(Merge(options).tokenLookup) == lookup
    ensures Configure(options) == Config(Merge(options).transportMethod, SelectSource(lookup.via), lookup.field)
  {
  }

  /** The default lookup string names the header X-HTTP-Method-Override. */
  lemma DefaultLookupParses()
    ensures ParseTokenLookup(DefaultTokenLookup) == TokenLookup("header", Some(DefaultHeaderName))
  {
    ParseJoined("header", DefaultHeaderName);
  }

  /** Parsing `kind:field` gives back the kind and the field when neither holds a colon. */
  lemma ParseJoined(via: string, field: string)
    requires ':' !in via && ':' !in field
    ensures ParseTokenLookup(via + ":" + field) == TokenLookup(via, Some(field))
  {
    SplitAfterFirst(via, field, ':');
    assert Split(field, ':') == [field];
  }

  /** Anything after a second colon is dropped. */
  lemma ParseDropsAfterSecondColon(via: string, field: string, rest: string)
    requires ':' !in via && ':' !in field
    ensures ParseTokenLookup(via + ":" + field + ":" + rest) == TokenLookup(via, Some(field))
  {
    assert via + ":" + field + ":" + rest == via + [':'] + (field + [':'] + rest);
    SplitAfterFirst(via, field + [':'] + rest, ':');
    SplitAfterFirst(field, rest, ':');
  }

  /**
   * The factory end to end: with `tokenLookup` set to `kind:field` (no colon in either),
   * the handler reads `req.body[field]` for kind "form", `req.query[field]` for kind
   * "query", and the header `field` for every other kind.
   */
  lemma FactoryReadsNamedField(m: Option<string>, kind: string, field: string, req: RequestState)
    requires ':' !in kind && ':' !in field
    ensures kind == "form" ==> Extract(Configure(Options(m, Some(kind + ":" + field))), req) == Lookup(req.body, field)
    ensures kind == "query" ==> Extract(Configure(Options(m, Some(kind + ":" + field))), req) == Lookup(req.query, field)
    ensures kind != "form" && kind != "query" ==>
      Extract(Configure(Options(m, Some(kind + ":" + field))), req) == Lookup(req.headers, field)
  {
    ParseJoined(kind, field);
  }

  /** Supplying `method` replaces only the method; the source and field stay the defaults' or the caller's. */
  lemma MethodOptionReplacesOnlyMethod(options: Options, m: string)
    ensures Configure(options.(transportMethod := Some(m))).transportMethod == m
    ensures Configure(options.(transportMethod := Some(m))).source == Configure(options).source
    ensures Configure(options.(transportMethod := Some(m))).field == Configure(options).field
  {
  }

  /** Supplying `tokenLookup` replaces only the source and field; the method stays as it was. */
  lemma TokenLookupOptionReplacesOnlyLookup(options: Options, lookup: string)
    ensures Configure(options.(tokenLookup := Some(lookup))).transportMethod == Configure(options).transportMethod
    ensures Configure(options.(tokenLookup := Some(lookup))).field == ParseTokenLookup(lookup).field
    ensures Configure(options.(tokenLookup := Some(lookup))).source == SelectSource(ParseTokenLookup(lookup).via)
  {
  }

  // ---------------------------------------------------------------------------
  // Properties of the per-request step
  // ---------------------------------------------------------------------------

  /** `originalMethod` is set at most once: a truthy value is kept, otherwise it becomes the entry method. */
  lemma OriginalMethodSetOnce(c: Config, req: RequestState)
    ensures Truthy(req.originalMethod) ==> Step(c, req).originalMethod == req.originalMethod
    ensures !Truthy(req.originalMethod) ==> Step(c, req).originalMethod == Some(req.currentMethod)
  {
  }

  /**
   * Running the handler twice changes nothing the first run did not, so the original
   * method stays the first value; this needs a non-empty method at entry, since an empty
   * string would not count as already set.
   */
  lemma StepTwice(c: Config, req: RequestState)
    requires Truthy(req.originalMethod) || req.currentMethod != ""
    ensures Step(c, Step(c, req)) == Step(c, req)
  {
  }

  /** An ineligible request keeps its method whatever token it carries. */
  lemma IneligibleKeepsMethod(c: Config, req: RequestState)
    requires Original(req) != Some(c.transportMethod)
    ensures Step(c, req).currentMethod == req.currentMethod
  {
  }

  /** Without a token (absent or empty) the request keeps its method. */
  lemma MissingTokenKeepsMethod(c: Config, req: RequestState)
    requires !Truthy(Extract(c, req))
    ensures Step(c, req).currentMethod == req.currentMethod
  {
  }

  /**
   * An eligible request with a non-empty token gets the token's upper case as its method:
   * the new method is upper case, non-empty, and equal to the token up to case.
   */
  lemma OverrideUppercasesToken(c: Config, req: RequestState)
    requires Eligible(c, req) && Truthy(Extract(c, req))
    ensures Step(c, req).currentMethod == ToUpper(Extract(c, req).value)
    ensures IsUpper(Step(c, req).currentMethod) && Step(c, req).currentMethod != ""
    ensures EqualIgnoringCase(Step(c, req).currentMethod, Extract(c, req).value)
  {
  }

  /** Tokens that differ only in case lead to the same method. */
  lemma OverrideIsCaseInsensitive(c: Config, req: RequestState, other: string)
    requires Eligible(c, req) && Truthy(Extract(c, req))
    requires EqualIgnoringCase(other, Extract(c, req).value)
    ensures Step(c, req).currentMethod == ToUpper(other)
  {
  }

  /** The method changes only by an override: either it is kept, or it is the upper-cased token. */
  lemma MethodChangesOnlyByOverride(c: Config, req: RequestState)
    ensures Step(c, req).currentMethod == req.currentMethod
         || (Eligible(c, req) && Truthy(Extract(c, req)) && Step(c, req).currentMethod == ToUpper(Extract(c, req).value))
  {
  }

  // ---------------------------------------------------------------------------
  // The scenarios of the test suite
  // ---------------------------------------------------------------------------

  /** A GET with no override token stays GET under the default configuration. */
  lemma GetIsUntouched(req: RequestState)
    requires req.currentMethod == "GET" && req.originalMethod == None
    ensures Step(Configure(NoOptions), req).currentMethod == "GET"
  {
  }

  /** A POST with `X-HTTP-Method-Override: DELETE` becomes DELETE under the default configuration. */
  lemma DefaultHeaderOverride(req: RequestState)
    requires req.currentMethod == "POST" && req.originalMethod == None
    requires req.headers == map["X-HTTP-Method-Override" := "DELETE"]
    ensures Step(Configure(NoOptions), req).currentMethod == "DELETE"
  {
    DefaultConfiguration();
    var c := Config("POST", Header, Some("X-HTTP-Method-Override"));
    assert Extract(c, req) == Some("DELETE");
    UpperDelete();
  }

  /** The configuration `tokenLookup: 'query:_method'`. */
  lemma QueryConfiguration()
    ensures Configure(Options(None, Some("query:_method"))) == Config("POST", Query, Some("_method"))
  {
    ParseJoined("query", "_method");
    assert "query:_method" == "query" + ":" + "_method";
  }

  /** With query lookup, a POST without `_method` stays POST. */
  lemma QueryMissingKeepsPost(req: RequestState)
    requires req.currentMethod == "POST" && req.originalMethod == None && "_method" !in req.query
    ensures Step(Configure(Options(None, Some("query:_method"))), req).currentMethod == "POST"
  {
    QueryConfiguration();
  }

  /** With query lookup, `_method=DELete` on a POST gives DELETE. */
  lemma QueryIsCaseInsensitive(req: RequestState)
    requires req.currentMethod == "POST" && req.originalMethod == None
    requires req.query == map["_method" := "DELete"]
    ensures Step(Configure(Options(None, Some("query:_method"))), req).currentMethod == "DELETE"
  {
    QueryConfiguration();
    var c := Config("POST", Query, Some("_method"));
    assert Extract(c, req) == Some("DELete");
    UpperDelete();
  }

  /** "DELETE" in any of the letter cases the tests send upper-cases to DELETE. */
  lemma UpperDelete()
    ensures ToUpper("DELETE") == "DELETE"
    ensures ToUpper("DELete") == "DELETE"
  {
  }

  /** With query lookup, a DELETE request with `_method=PATCH` stays DELETE. */
  lemma QueryOnlyOverridesPost(req: RequestState)
    requires req.currentMethod == "DELETE" && req.originalMethod == None
    requires req.query == map["_method" := "PATCH"]
    ensures Step(Configure(Options(None, Some("query:_method"))), req).currentMethod == "DELETE"
  {
  }

}
