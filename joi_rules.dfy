/** The few rules of the validation library the schemas rely on, as it applies them by default.
    A property that reads as `undefined` counts as absent. */
module JoiRules {
  import opened Json

  /** `Joi.string()`: a string, and not the empty one. */
  predicate IsString(v: Value) {
    v.Str? && v.s != ""
  }

  /** `Joi.number()`. */
  predicate IsNumber(v: Value) {
    v.Number?
  }

  /** `Joi.number().integer()`. */
  predicate IsInteger(v: Value) {
    v.Number? && v.n.Floor as real == v.n
  }

  /** `.required()` on top of a rule. */
  predicate Required(o: Record, k: string, rule: Value -> bool) {
    Field(o, k) != Undefined && rule(Field(o, k))
  }

  /** A rule without `.required()`: absent is fine. */
  predicate Optional(o: Record, k: string, rule: Value -> bool) {
    Field(o, k) == Undefined || rule(Field(o, k))
  }

  /** `Joi.object({...})` without `.unknown()`: no property beyond the declared ones. */
  predicate OnlyKeys(o: Record, declared: set<string>) {
    o.Keys <= declared
  }
}
