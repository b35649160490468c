/** The optional-value datatype used for absent fields (a TypeScript `?:` property). */
module Wrappers {

  datatype Option<+T> = None | Some(value: T)
}
