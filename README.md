# trek-method-override in Dafny

A model of the trek method-override middleware (`index.js`). The middleware lets a client
send a request with one HTTP method (POST by default) and name the method it means in a
request header, a query parameter or a form field. A router placed after it then sees the
named method.

The middleware has two parts:

- **The factory** `methodOverrideWithConfig(options)`. It merges the caller's options over
  the module defaults (`method: 'POST'`,
  `tokenLookup: 'header:X-HTTP-Method-Override'`). It splits `tokenLookup` at its colons
  into a source kind and a field name, and binds one of three extractors: `form` reads the
  parsed body, `query` reads the query map, and every other kind reads a request header.
  In the model this is the pure function `MethodOverride.Configure`, built from `Merge`,
  `ParseTokenLookup` (on top of `Strings.Split`, a model of `String.prototype.split`) and
  `SelectSource`.
- **The handler** it returns. The handler caches `req.originalMethod` the first time it
  runs. When that original method is exactly the configured one and the extractor yields a
  truthy token, it sets `req.method` to the token in upper case. In the model this is the
  method `MethodOverride.Handle` on a `Request` object. It may write only the object's
  `originalMethod` and `currentMethod` fields; `currentMethod` is `req.method`, because
  `method` is a Dafny keyword. Its postcondition ties the new state to the pure function
  `Step`. The properties of the handler are lemmas about `Step`.

JavaScript values that may be `undefined` are `Option<string>`. A value is truthy when it
is present and not the empty string, as in JavaScript. Upper-casing is `Ascii.ToUpper`.

Two lines of `index.js` cannot run as written. Line 14 exports the name `methodOverride`,
which does not exist at module scope. Line 40 declares `let m` inside an expression, which
is a syntax error. The model follows the evident intent: the factory returns the handler,
and `m` is the extractor's result.

The test suite asserts two behaviours that `index.js` does not implement. Unknown verbs
such as `BOGUS` should be ignored (test/index.js:113-137). The first value of a repeated
query key should win (test/index.js:139-163). The `Validated` module models both at the
level of the raw value an extractor yields. `Validated.AsWritten` is what index.js:40-41
does with that value: it accepts `BOGUS`, and it throws a `TypeError` on an array. Then
`Validated.Corrected` is what the tests expect: take the first candidate, upper-case it,
and accept it only when it is a standard method name. `Handle` models `index.js` as
written.

`index.js` has one eligible method, sets no `Vary` response header and does not split
comma-separated header values; neither does the model.

## Model

| member | source | states |
|---|---|---|
| Ascii.UpperChar | index.js:41 | a lower-case ASCII letter maps to the upper-case letter 32 code points below it; every other character is kept; the result is never a lower-case letter |
| Ascii.ToUpper | index.js:41 | `toUpperCase` keeps the length and upper-cases each character independently |
| Ascii.ToUpperIsUpper | index.js:41 | the upper-cased token holds no lower-case letter and equals the token up to case |
| Ascii.ToUpperIdempotent | index.js:41 | upper-casing twice is upper-casing once |
| Ascii.ToUpperOfUpper | index.js:41 | a token already in upper case is unchanged |
| Ascii.ToUpperCaseInsensitive | index.js:41 | two tokens upper-case to the same method if and only if they are equal up to letter case |
| Strings.IndexOf | index.js:21 | the first position of the separator: the character there is the separator and no earlier character is |
| Strings.IndexOfUnique | index.js:21 | any separator with none before it is the one IndexOf finds |
| Strings.Split | index.js:21 | `split` yields at least one piece, and at least two when the separator occurs |
| Strings.SplitPiecesAreSeparatorFree | index.js:21 | no piece of a split holds the separator |
| Strings.JoinSplit | index.js:21 | joining the pieces with the separator gives back the original string |
| Strings.SplitJoin | index.js:21 | splitting a join of separator-free pieces gives back the pieces |
| Strings.SplitAfterFirst | index.js:21 | for `a + sep + b` with no separator in `a`, the first piece is `a` and the rest is the split of `b` |
| Strings.SplitFirstTwo | index.js:21 | the first two pieces, with one separator between them, are a prefix of the string that ends at its end or at another separator |
| MethodOverride.Merge | index.js:9-17 | `Object.assign({}, defaults, options)`: a supplied option wins, a missing one takes its default |
| MethodOverride.ParseTokenLookup | index.js:21 | the kind is the text before the first colon; the field is the text between the first and second colon; with no colon there is no field and the kind is the whole string |
| MethodOverride.ParseJoined | index.js:21 | parsing `kind:field` gives back `kind` and `field` when neither holds a colon |
| MethodOverride.ParseDropsAfterSecondColon | index.js:21 | text after a second colon is dropped |
| MethodOverride.SelectSource | index.js:23-33 | `form` selects the body extractor and `query` the query extractor, each if and only if the kind is exactly that word; every other kind selects the header extractor |
| MethodOverride.Configure | index.js:16-35 | the factory keeps the merged method; it has a field exactly when the lookup string holds a colon; it binds the form extractor exactly when the kind is "form" and the query extractor exactly when it is "query" |
| MethodOverride.FactoryReadsNamedField | index.js:16-59 | with `tokenLookup` `kind:field`, the bound extractor reads `req.body[field]` for kind "form", `req.query[field]` for kind "query", and the header `field` for every other kind |
| MethodOverride.DefaultLookupParses | index.js:11-21 | the default lookup string parses to kind `header` and field `X-HTTP-Method-Override` |
| MethodOverride.DefaultConfiguration | index.js:9-35 | with no options, the handler overrides POST requests from the header X-HTTP-Method-Override |
| MethodOverride.MethodOptionReplacesOnlyMethod | index.js:17-19 | supplying `method` changes the eligible method and leaves source and field as they were |
| MethodOverride.TokenLookupOptionReplacesOnlyLookup | index.js:17-33 | supplying `tokenLookup` sets the field and the source from the supplied string and leaves the eligible method as it was |
| MethodOverride.MethodFromHeader | index.js:49-51 | yields the named header's value, and nothing when the header is absent |
| MethodOverride.MethodFromForm | index.js:53-55 | yields `req.body[param]`, and `undefined` when the key is absent; a missing field name reads the key "undefined" |
| MethodOverride.MethodFromQuery | index.js:57-59 | yields `req.query[param]`, and `undefined` when the key is absent; a missing field name reads the key "undefined" |
| MethodOverride.Truthy | index.js:38-40 | JavaScript truthiness of a string-or-undefined value: `undefined` and "" are falsy, and a value is truthy exactly when it is a non-empty string |
| MethodOverride.Extract | index.js:40 | the token is the named header for the header source, `body[field]` for form and `query[field]` for query |
| MethodOverride.ExtractReadsOnlySelectedMap | index.js:49-59 | the token depends only on the map the source names: requests that agree there give the same token |
| MethodOverride.Original | index.js:38 | `req.originalMethod \|\| req.method`: a truthy cached value is kept, otherwise the method at entry |
| MethodOverride.Eligible | index.js:40 | `method === req.originalMethod`: with a truthy cached `originalMethod` it must equal the configured method, otherwise the method at entry must, case-sensitively |
| MethodOverride.Step | index.js:37-45 | one run leaves headers, query and body unchanged and caches the original method |
| MethodOverride.Request.constructor | index.js:38 | a new request has its transport method and no cached original method |
| MethodOverride.Handle | index.js:37-45 | the handler writes only `originalMethod` and `method`, and leaves exactly the state `Step` describes |
| MethodOverride.OriginalMethodSetOnce | index.js:38 | a truthy `originalMethod` is kept; otherwise it becomes the method at entry |
| MethodOverride.StepTwice | index.js:38-41 | a second run of the handler changes nothing, so `originalMethod` keeps its first value |
| MethodOverride.IneligibleKeepsMethod | index.js:40 | a request whose original method is not exactly the configured one keeps its method, whatever token it carries |
| MethodOverride.MissingTokenKeepsMethod | index.js:40 | an absent or empty token keeps the method |
| MethodOverride.OverrideUppercasesToken | index.js:40-41 | an eligible request with a non-empty token gets the token in upper case: non-empty, upper case, equal to the token up to case |
| MethodOverride.OverrideIsCaseInsensitive | index.js:41 | tokens that differ only in letter case give the same method |
| MethodOverride.MethodChangesOnlyByOverride | index.js:37-45 | the method is either unchanged or the upper-cased token of an eligible request |
| MethodOverride.GetIsUntouched | test/index.js:20-35 | a GET with no token stays GET under the default configuration |
| MethodOverride.DefaultHeaderOverride | test/index.js:37-59 | a POST with `X-HTTP-Method-Override: DELETE` becomes DELETE |
| MethodOverride.QueryConfiguration | test/index.js:65-67 | `tokenLookup: 'query:_method'` configures POST, the query extractor and field `_method` |
| MethodOverride.QueryMissingKeepsPost | test/index.js:61-85 | with query lookup, a POST without `_method` stays POST |
| MethodOverride.UpperDelete | test/index.js:102 | `DELete` and `DELETE` both upper-case to DELETE |
| MethodOverride.QueryIsCaseInsensitive | test/index.js:87-111 | with query lookup, `_method=DELete` on a POST gives DELETE |
| MethodOverride.QueryOnlyOverridesPost | test/index.js:165-189 | with query lookup, a DELETE request with `_method=PATCH` stays DELETE |
| Validated.AsWritten | index.js:40-41 | on a raw value, index.js keeps the method for `undefined` and "", sets the upper-cased string otherwise, and throws for any array |
| Validated.FirstCandidate | test/index.js:139-163 | the candidate is the string itself or the first element of an array; there is none for `undefined` or an empty array |
| Validated.Corrected | test/index.js:113-163 | the expected behaviour never throws, and it sets a method if and only if the upper-cased first candidate is a standard method name |
| Validated.CorrectedAgreesOnStandardVerbs | index.js:40-41 | on a single string naming a standard method, the expected behaviour equals index.js |
| Validated.CorrectedNarrowsAsWritten | index.js:40-41 | whenever the expected behaviour sets a method from a string, index.js sets the same one |
| Validated.AsWrittenAcceptsBogus | test/index.js:113-137 | as written, `_method=BOGUS` sets the method to BOGUS, against the test's expectation of POST |
| Validated.CorrectedIgnoresBogus | test/index.js:113-137 | with the expected behaviour, `_method=BOGUS` keeps the method |
| Validated.AsWrittenRepeatedKeyThrows | test/index.js:139-163 | as written, `_method=DELETE&_method=PUT` calls `toUpperCase` on an array and throws |
| Validated.CorrectedFirstValueWins | test/index.js:139-163 | with the expected behaviour, `_method=DELETE&_method=PUT` gives DELETE |

## Left out

- The `next()` continuation (index.js:44) and middleware chaining: `Handle` returns after its updates.
- The response object. `methodFromHeader` receives `res` (index.js:49) but never uses it, so no `Vary` header is modelled.
- How `req.get` matches header names. The framework matches them case-insensitively; here headers are a map with exact keys.
- Query-string and body parsing. Both are already-parsed `string -> string` maps. Non-string body values and inherited JavaScript properties such as `constructor` are not modelled. An undefined `req.body` (no body parser), on which index.js:54 would throw, is not modelled either.
- MethodFromHeader: with no field name (a `tokenLookup` without a colon) it yields nothing. `req.get(undefined)` belongs to the framework and is not part of this model. Form and query reads with no field name follow JavaScript and read the key "undefined".
- Options whose value is explicitly `undefined` or not a string. `Object.assign` would copy an explicit `undefined` over the default, and a non-string `tokenLookup` would make `split` throw. Each option is either supplied as a string or absent.
- Full Unicode `toUpperCase`. Only ASCII letters are mapped; for example `ß` (which JavaScript maps to `SS`) is kept.
- StepTwice: assumes the method at entry is non-empty or `originalMethod` is already set. With an empty method, JavaScript's `||` treats the cached empty string as unset, and a second run caches the overridden method instead. HTTP request methods are never empty.
- Validated.Corrected: works on the raw token only and is not wired into `Handle`, which models index.js as written. Its verb list is the methods of section 9 of RFC 9110 plus PATCH (RFC 5789). Extension methods that a host recognises are not included.
