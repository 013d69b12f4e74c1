/**
 * The catalog entries the forms look up or edit: ingredients, which the
 * recipe form resolves its lines to, and garnishes, which the recipe form
 * selects and the garnish form edits.
 */
module Catalog {
  import opened JsValues

  /** A catalog ingredient; price and volume may be missing. */
  datatype Ingredient = Ingredient(id: string, name: string, price: Option<real>, volume: Option<real>)

  /** A catalog garnish; description and image may be missing. */
  datatype Garnish = Garnish(id: string, name: string, price: real, description: Option<string>, image: Option<string>)
}
