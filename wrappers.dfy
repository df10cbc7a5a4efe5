/** Optional values, standing for the source's `null`-able fields and results. */
module Wrappers {

  datatype Option<+T> = None | Some(value: T)

  /** JavaScript truthiness of a nullable string: present and not "". */
  predicate Truthy(s: Option<string>) { s.Some? && s.value != "" }

  /** JavaScript truthiness of a nullable number: present and not 0. */
  predicate TruthyNumber(x: Option<int>) { x.Some? && x.value != 0 }

}
