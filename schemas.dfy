/** The three JSON schemas of api/schemas.py as validity predicates over the instance the
    routes validate: a JSON object, modelled as a map from property names to values. Each
    keyword is read as the JSON-schema validator reads it: `type`, `minimum` and `maximum`
    work on numbers and integers (an integral float counts as an integer), `minLength` and
    `maxLength` count characters, `enum` compares numbers by value, and a property the
    schema does not list is not constrained, since no schema restricts
    `additionalProperties`. */
module Schemas {
  import opened Common
  import opened Errors

  /** A JSON object, as passed to `validate(instance=...)`. */
  type Instance = map<string, Json>

  const ValidationFailedMessage := "instance does not match the schema"

  predicate IsNumber(j: Json) {
    j.JInt? || j.JReal?
  }

  predicate IsInteger(j: Json) {
    j.JInt? || (j.JReal? && j.r.Floor as real == j.r)
  }

  predicate IsAsciiLetter(c: char) {
    'a' <= c <= 'z' || 'A' <= c <= 'Z'
  }

  /** The pattern `^[a-zA-Z]{2}$` as Python's `re.search` applies it: two ASCII letters
      from the start, then the end of the string or a single final newline, since `$`
      also matches just before one. */
  predicate IsTwoLetterCode(s: string) {
    && (|s| == 2 || (|s| == 3 && s[2] == '\n'))
    && IsAsciiLetter(s[0]) && IsAsciiLetter(s[1])
  }

  /** The `query` property every schema declares and requires: a string of 1 to 100
      characters. */
  predicate QueryOk(inst: Instance) {
    "query" in inst && inst["query"].JStr? && 1 <= |inst["query"].s| <= 100
  }

  /** An optional property of type `number` with a `minimum`. */
  predicate NumberAtLeast(inst: Instance, key: string, lo: real) {
    key in inst ==> IsNumber(inst[key]) && AsNumber(inst[key]).value >= lo
  }

  /** An optional property of type `number` with a `minimum` and a `maximum`. */
  predicate NumberBetween(inst: Instance, key: string, lo: real, hi: real) {
    key in inst ==> IsNumber(inst[key]) && lo <= AsNumber(inst[key]).value <= hi
  }

  /** An optional property of type `integer` with a `minimum`. */
  predicate IntegerAtLeast(inst: Instance, key: string, lo: int) {
    key in inst ==> IsInteger(inst[key]) && AsNumber(inst[key]).value >= lo as real
  }

  /** An optional property of type `integer` with an `enum` of integers. */
  predicate IntegerIn(inst: Instance, key: string, allowed: set<int>) {
    key in inst ==> IsInteger(inst[key]) && AsNumber(inst[key]).value.Floor in allowed
  }

  /** An optional property of type `string` with the two-letter `pattern`. */
  predicate TwoLetterString(inst: Instance, key: string) {
    key in inst ==> inst[key].JStr? && IsTwoLetterCode(inst[key].s)
  }

  /** SEARCH_SCHEMA. */
  predicate SearchSchema(inst: Instance)
    ensures SearchSchema(inst) ==> "query" in inst && inst["query"].JStr?
  {
    QueryOk(inst)
  }

  /** ACTOR_FILTER_SCHEMA. */
  predicate ActorFilterSchema(inst: Instance)
    ensures ActorFilterSchema(inst) ==> "query" in inst && inst["query"].JStr?
    ensures ActorFilterSchema(inst) && "gender" in inst ==> inst["gender"] in {JInt(0), JInt(1), JInt(2), JInt(3), JReal(0.0), JReal(1.0), JReal(2.0), JReal(3.0)}
  {
    && QueryOk(inst)
    && NumberAtLeast(inst, "min_popularity", 0.0)
    && IntegerIn(inst, "gender", {0, 1, 2, 3})
    && IntegerAtLeast(inst, "birth_year_from", 1800)
    && IntegerAtLeast(inst, "birth_year_to", 1800)
  }

  /** MEDIA_FILTER_SCHEMA. */
  predicate MediaFilterSchema(inst: Instance)
    ensures MediaFilterSchema(inst) ==> "query" in inst && inst["query"].JStr?
    ensures MediaFilterSchema(inst) && "language" in inst ==>
              inst["language"].JStr? && IsTwoLetterCode(inst["language"].s)
  {
    && QueryOk(inst)
    && IntegerAtLeast(inst, "year", 1900)
    && IntegerAtLeast(inst, "genre_id", 1)
    && NumberBetween(inst, "min_rating", 0.0, 10.0)
    && TwoLetterString(inst, "language")
  }

  /** The three schema constants. */
  datatype Schema = SEARCH_SCHEMA | ACTOR_FILTER_SCHEMA | MEDIA_FILTER_SCHEMA

  predicate Conforms(inst: Instance, schema: Schema) {
    match schema
    case SEARCH_SCHEMA => SearchSchema(inst)
    case ACTOR_FILTER_SCHEMA => ActorFilterSchema(inst)
    case MEDIA_FILTER_SCHEMA => MediaFilterSchema(inst)
  }

  /** `validate(instance, schema)`: returns normally when the instance conforms and raises
      a `ValidationError` otherwise. */
  function Validate(inst: Instance, schema: Schema): (r: Outcome<()>)
    ensures r.Return? <==> Conforms(inst, schema)
    ensures r.Raise? ==> r.exc.ValidationError?
  {
    if Conforms(inst, schema) then Return(()) else Raise(ValidationError(ValidationFailedMessage))
  }

  /** Both filter schemas are refinements of SEARCH_SCHEMA. */
  lemma FilterSchemasRefineSearch(inst: Instance)
    ensures ActorFilterSchema(inst) ==> SearchSchema(inst)
    ensures MediaFilterSchema(inst) ==> SearchSchema(inst)
  {
  }

  /** Only `query` is required: an instance holding nothing else is valid exactly when its
      query is a string of 1 to 100 characters. */
  lemma OnlyQueryRequired(q: string)
    ensures ActorFilterSchema(map["query" := JStr(q)]) <==> 1 <= |q| <= 100
    ensures MediaFilterSchema(map["query" := JStr(q)]) <==> 1 <= |q| <= 100
  {
  }

  /** A property none of the schemas lists is accepted whatever its value. */
  lemma UnknownPropertiesIgnored(inst: Instance, key: string, v: Json)
    requires key !in {"query", "min_popularity", "gender", "birth_year_from", "birth_year_to",
                      "year", "genre_id", "min_rating", "language"}
    ensures ActorFilterSchema(inst[key := v]) <==> ActorFilterSchema(inst)
    ensures MediaFilterSchema(inst[key := v]) <==> MediaFilterSchema(inst)
    ensures SearchSchema(inst[key := v]) <==> SearchSchema(inst)
  {
  }

  /** The language pattern accepts two letters of either case, optionally followed by one
      newline, and nothing else. */
  lemma LanguagePatternExamples()
    ensures IsTwoLetterCode("ab") && IsTwoLetterCode("Zq")
    ensures !IsTwoLetterCode("abc") && !IsTwoLetterCode("1a") && !IsTwoLetterCode("a")
    ensures IsTwoLetterCode("ab\n") && !IsTwoLetterCode("ab\n\n") && !IsTwoLetterCode("\nab")
  {
  }

  /** The two birth-year bounds are checked separately: a lower bound above the upper
      bound is valid. */
  lemma BirthYearBoundsUnrelated()
    ensures ActorFilterSchema(map["query" := JStr("x"), "birth_year_from" := JInt(2000),
                                  "birth_year_to" := JInt(1900)])
  {
  }
}
