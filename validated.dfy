/**
 * Two behaviours the test suite asserts that index.js does not implement: unknown verbs
 * are ignored, and the first value of a repeated query key wins. Query parsers hand a
 * repeated key back as an array, so this module works on the raw value an extractor
 * yields, which may be a string or an array of strings.
 *
 * `AsWritten` is what index.js:40-41 does with such a value; `Corrected` is the behaviour
 * the tests expect. The handler in MethodOverride models index.js as written.
 */
module Validated {
  import opened Wrappers
  import opened Ascii

  /** A raw parameter value: a single string, or an array for a repeated key. */
  datatype Param = Str(s: string) | Arr(items: seq<string>)

  /** What the override step does to the request method. */
  datatype Outcome = Keep | SetMethod(verb: string) | TypeError

  /**
   * The method names defined in section 9 of RFC 9110, together with PATCH from RFC 5789.
   */
  const StandardMethods: set<string> :=
    {"GET", "HEAD", "POST", "PUT", "DELETE", "CONNECT", "OPTIONS", "TRACE", "PATCH"}

  /**
   * index.js:40-41 applied to a raw value: `undefined` and "" are falsy and keep the
   * method; any array is truthy, and an array has no `toUpperCase`, so the call throws.
   */
  function AsWritten(token: Option<Param>): (o: Outcome)
    ensures o.TypeError? <==> token.Some? && token.value.Arr?
    ensures o.SetMethod? <==> token.Some? && token.value.Str? && token.value.s != ""
    ensures o.SetMethod? ==> o.verb == ToUpper(token.value.s)
  {
    match token
    case None => Keep
    case Some(Str(s)) => if s != "" then SetMethod(ToUpper(s)) else Keep
    case Some(Arr(_)) => TypeError
  }

  /** The candidate token: the string itself, or the first element of an array. */
  function FirstCandidate(token: Option<Param>): (c: Option<string>)
    ensures token.Some? && token.value.Str? ==> c == Some(token.value.s)
    ensures token.Some? && token.value.Arr? && token.value.items != [] ==> c == Some(token.value.items[0])
    ensures c.None? <==> token.None? || (token.value.Arr? && token.value.items == [])
  {
    match token
    case None => None
    case Some(Str(s)) => Some(s)
    case Some(Arr(items)) => if items == [] then None else Some(items[0])
  }

  /**
   * The behaviour the tests expect: take the first candidate, upper-case it, and use it
   * only when it names a standard method; anything else keeps the method.
   */
  function Corrected(token: Option<Param>): (o: Outcome)
    ensures !o.TypeError?
    ensures o.SetMethod? ==> o.verb in StandardMethods && IsUpper(o.verb)
    ensures o.SetMethod? <==> FirstCandidate(token).Some? && ToUpper(FirstCandidate(token).value) in StandardMethods
    ensures o.SetMethod? ==> EqualIgnoringCase(o.verb, FirstCandidate(token).value)
  {
    var candidate := FirstCandidate(token);
    if candidate.Some? && ToUpper(candidate.value) in StandardMethods then
      ToUpperIsUpper(candidate.value);
      SetMethod(ToUpper(candidate.value))
    else
      Keep
  }

  /** On a single string that names a standard method, the corrected step agrees with index.js. */
  lemma CorrectedAgreesOnStandardVerbs(s: string)
    requires ToUpper(s) in StandardMethods
    ensures Corrected(Some(Str(s))) == AsWritten(Some(Str(s)))
  {
  }

  /** The corrected step only ever narrows what index.js does: it never sets a method index.js would not. */
  lemma CorrectedNarrowsAsWritten(s: string)
    ensures Corrected(Some(Str(s))).SetMethod? ==> Corrected(Some(Str(s))) == AsWritten(Some(Str(s)))
  {
  }

  // ---------------------------------------------------------------------------
  // The two test cases index.js does not satisfy
  // ---------------------------------------------------------------------------

  /** As written, `_method=BOGUS` sets the method to BOGUS, where the test expects POST to stay. */
  lemma AsWrittenAcceptsBogus()
    ensures AsWritten(Some(Str("BOGUS"))) == SetMethod("BOGUS")
  {
  }

  /** Corrected, `_method=BOGUS` keeps the method. */
  lemma CorrectedIgnoresBogus()
    ensures Corrected(Some(Str("BOGUS"))) == Keep
  {
  }

  /** As written, `_method=DELETE&_method=PUT` reaches `toUpperCase` on an array and throws. */
  lemma AsWrittenRepeatedKeyThrows()
    ensures AsWritten(Some(Arr(["DELETE", "PUT"]))) == TypeError
  {
  }

  /** Corrected, `_method=DELETE&_method=PUT` gives DELETE: the first value wins. */
  lemma CorrectedFirstValueWins()
    ensures Corrected(Some(Arr(["DELETE", "PUT"]))) == SetMethod("DELETE")
  {
    assert FirstCandidate(Some(Arr(["DELETE", "PUT"]))) == Some("DELETE");
    ToUpperOfUpper("DELETE");
    assert "DELETE" in StandardMethods;
  }

}
