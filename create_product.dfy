/** The payload of a product creation: `CreateProductDto` and the checks its
    class-validator decorators make on a JSON body before the service sees it. */
module CreateProduct {
  import opened Wrappers
  import opened Validation

  /** A body that passed validation: all five properties, typed. */
  datatype CreateProductDto = CreateProductDto(
    name: string,
    description: string,
    price: real,
    category: string,
    inStock: bool)

  /** The decorators' constraints on a typed payload: non-empty `name`,
      `description` and `category`, and `price >= 0`. */
  predicate Valid(dto: CreateProductDto) {
    dto.name != [] && dto.description != [] && dto.price >= 0.0 && dto.category != []
  }

  /** The properties `CreateProductDto` declares; none is optional. */
  const Properties: set<string> := {"name", "description", "price", "category", "inStock"}

  /** The decorators on property `key` accept the body's value for it;
      a missing property fails them all. */
  predicate PropertyOk(body: map<string, JsonValue>, key: string) {
    key in body &&
    if key == "price" then body[key].JNumber? && body[key].n >= 0.0   // @IsNumber() @Min(0)
    else if key == "inStock" then body[key].JBool?                    // @IsBoolean()
    else IsNonEmptyString(body[key])                                  // @IsString() @IsNotEmpty()
  }

  /** Every rejection the validation pipe reports for `body`. */
  function Errors(body: map<string, JsonValue>): set<ValidationError> {
    (set key | key in Properties && !PropertyOk(body, key) :: PropertyInvalid(key)) +
    (set key | key in body && key !in Properties :: PropertyForbidden(key))
  }

  /** The JSON body of a typed payload. */
  function ToBody(dto: CreateProductDto): map<string, JsonValue> {
    map["name" := JString(dto.name), "description" := JString(dto.description),
        "price" := JNumber(dto.price), "category" := JString(dto.category),
        "inStock" := JBool(dto.inStock)]
  }

  /** The validation pipe on a creation body: the typed payload when every
      declared property passes its decorators and no undeclared property is
      present, otherwise the set of rejections. */
  function Validate(body: map<string, JsonValue>): (r: Result<CreateProductDto, set<ValidationError>>)
    ensures r.Success? <==>
      (forall key :: key in Properties ==> PropertyOk(body, key)) && body.Keys <= Properties
    ensures r.Success? ==> Valid(r.value) && ToBody(r.value) == body
    ensures r.Failure? ==> r.error != {}
  {
    var errors := Errors(body);
    if errors == {} then
      assert forall key :: key in Properties ==> PropertyOk(body, key) by {
        forall key | key in Properties ensures PropertyOk(body, key) {
          assert PropertyInvalid(key) !in errors;
        }
      }
      assert body.Keys <= Properties by {
        forall key | key in body ensures key in Properties {
          assert PropertyForbidden(key) !in errors;
        }
      }
      var dto := CreateProductDto(body["name"].s, body["description"].s, body["price"].n,
                                  body["category"].s, body["inStock"].b);
      assert ToBody(dto) == body by {
        assert ToBody(dto).Keys == body.Keys;
      }
      Success(dto)
    else
      Failure(errors)
  }

  /** Round trip: a valid payload sent as a body comes back unchanged, and
      an invalid one is rejected. */
  lemma ValidateToBody(dto: CreateProductDto)
    ensures Valid(dto) ==> Validate(ToBody(dto)) == Success(dto)
    ensures !Valid(dto) ==> Validate(ToBody(dto)).Failure?
  {
  }

  /** A body missing any declared property is rejected, naming that property. */
  lemma MissingPropertyRejected(body: map<string, JsonValue>, key: string)
    requires key in Properties && key !in body
    ensures Validate(body).Failure? && PropertyInvalid(key) in Validate(body).error
  {
  }

  /** A body carrying a property the DTO does not declare is rejected. */
  lemma UndeclaredPropertyRejected(body: map<string, JsonValue>, key: string)
    requires key in body && key !in Properties
    ensures Validate(body).Failure? && PropertyForbidden(key) in Validate(body).error
  {
  }
}
