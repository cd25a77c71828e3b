/**
 * The schema validator the routers import. Its implementation is not part of
 * this model: a router is given a `Validator` and every property proved about
 * a handler is stated in terms of what the validator answered.
 */
module Validation {
  import opened Store

  /** A schema maps each declared field to whether it is required. */
  type Schema = map<string, bool>

  /**
   * `validateAgainstSchema(body, schema)` and `extractValidFields(body, schema)`,
   * left uninterpreted.
   */
  datatype Validator = Validator(validate: (Doc, Schema) -> bool, extract: (Doc, Schema) -> Doc)

  /** The documented promise of `extractValidFields`: it keeps only declared fields. */
  ghost predicate ExtractsWithinSchema(v: Validator)
  {
    forall body, schema :: v.extract(body, schema).Keys <= schema.Keys
  }
}
