/**
 * The Doctrine Inflector the code base calls. It is a foreign library, so its five
 * transformations are left uninterpreted: every property the model proves holds for
 * any choice of them.
 */
module Inflection {

  datatype Inflector = Inflector(
    camelize: string -> string,
    classify: string -> string,
    tableize: string -> string,
    pluralize: string -> string,
    singularize: string -> string)
}
