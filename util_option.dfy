/** An optional value: `std::optional` in the builders, the parser's lookahead
    checks and the dependency link. */
module Options {
  datatype Option<T> = None | Some(value: T)
}
