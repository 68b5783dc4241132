/** The query of a product listing: `SearchProductsDto`, every filter optional,
    and the transformation and validation the pipe applies to the raw query. */
module SearchProducts {
  import opened Wrappers
  import opened Validation

  /** A validated query; `None` is an absent filter. */
  datatype SearchProductsDto = SearchProductsDto(
    search: Option<string>,
    category: Option<string>,
    inStock: Option<bool>,
    minPrice: Option<real>,
    maxPrice: Option<real>)

  /** The query as it arrives: one optional raw value per declared property.
      The price bounds are taken as already converted to numbers. */
  datatype SearchQuery = SearchQuery(
    search: Option<JsonValue>,
    category: Option<JsonValue>,
    inStock: Option<JsonValue>,
    minPrice: Option<real>,
    maxPrice: Option<real>)

  /** The query that sets no filter at all. */
  const NoFilters: SearchProductsDto := SearchProductsDto(None, None, None, None, None)

  /** The `@Transform` on `inStock`: the value is true only when it is the
      string "true" or the boolean true. */
  function CoerceInStock(v: JsonValue): (b: bool)
    ensures b ==> v.JString? || v.JBool?
  {
    v == JString("true") || v == JBool(true)
  }

  /** The coercion is exact: only "true" and true give true; "false", "TRUE",
      "1", false and every other value give false. */
  lemma CoerceInStockCases(v: JsonValue)
    ensures CoerceInStock(v) <==> (v.JString? && v.s == "true") || (v.JBool? && v.b)
    ensures !CoerceInStock(JString("false")) && !CoerceInStock(JString("TRUE"))
    ensures !CoerceInStock(JString("1")) && !CoerceInStock(JBool(false))
  {
  }

  /** `@IsOptional() @IsString()`: absent or null passes without check,
      anything else must be a string. */
  predicate OptionalString(v: Option<JsonValue>) {
    v.None? || v.value.JNull? || v.value.JString?
  }

  function StringValue(v: Option<JsonValue>): Option<string> {
    if v.Some? && v.value.JString? then Some(v.value.s) else None
  }

  /** `@IsOptional() @IsBoolean()` on a transformed value. */
  predicate OptionalBoolean(v: Option<JsonValue>) {
    v.None? || v.value.JNull? || v.value.JBool?
  }

  /** Transformation then validation of the raw query. A present `inStock`
      goes through `CoerceInStock` before `@IsBoolean` sees it. */
  function FromQuery(q: SearchQuery): (r: Result<SearchProductsDto, set<ValidationError>>)
    ensures r.Success? <==> OptionalString(q.search) && OptionalString(q.category)
    ensures r.Failure? ==> r.error != {} && PropertyInvalid("inStock") !in r.error
    ensures r.Success? ==>
      (r.value.search.Some? <==> q.search.Some? && q.search.value.JString?) &&
      (r.value.category.Some? <==> q.category.Some? && q.category.value.JString?) &&
      (r.value.inStock.Some? <==> q.inStock.Some?) &&
      (q.inStock.Some? ==> r.value.inStock.value == CoerceInStock(q.inStock.value)) &&
      r.value.minPrice == q.minPrice && r.value.maxPrice == q.maxPrice
    ensures r.Success? && q.search.Some? && q.search.value.JString? ==>
      r.value.search == Some(q.search.value.s)
    ensures r.Success? && q.category.Some? && q.category.value.JString? ==>
      r.value.category == Some(q.category.value.s)
  {
    var inStock := if q.inStock.Some? then Some(JBool(CoerceInStock(q.inStock.value))) else None;
    var errors :=
      (if OptionalString(q.search) then {} else {PropertyInvalid("search")}) +
      (if OptionalString(q.category) then {} else {PropertyInvalid("category")}) +
      (if OptionalBoolean(inStock) then {} else {PropertyInvalid("inStock")});
    if errors == {} then
      Success(SearchProductsDto(
        StringValue(q.search),
        StringValue(q.category),
        if inStock.Some? then Some(inStock.value.b) else None,
        q.minPrice,
        q.maxPrice))
    else
      Failure(errors)
  }

  /** An empty query passes validation and sets no filter. */
  lemma EmptyQueryHasNoFilters()
    ensures FromQuery(SearchQuery(None, None, None, None, None)) == Success(NoFilters)
  {
  }
}
