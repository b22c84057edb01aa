/** The scanner states of the query parser. */
module QueryParserState {

  /** `General`: ordinary query text; `StringToken`: inside a single-quoted
      literal; `PlaceholderToken`: just after a `?` outside a literal. */
  datatype State = General | StringToken | PlaceholderToken
}
