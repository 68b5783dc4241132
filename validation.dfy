/** The values a request body carries once parsed from JSON, and the errors the
    global `ValidationPipe` (src/main.ts, `whitelist` and `forbidNonWhitelisted`)
    reports for them. */
module Validation {

  /** A JSON value as it reaches a DTO property. Arrays and objects are not
      needed by any rule of the model and are left out. */
  datatype JsonValue =
    | JString(s: string)
    | JNumber(n: real)
    | JBool(b: bool)
    | JNull

  /** One rejected property: a decorator failed on it, or it is not declared
      on the DTO (whitelist with `forbidNonWhitelisted`). */
  datatype ValidationError =
    | PropertyInvalid(property: string)
    | PropertyForbidden(property: string)

  /** `@IsString() @IsNotEmpty()` on a present property. */
  predicate IsNonEmptyString(v: JsonValue) {
    v.JString? && v.s != []
  }
}
