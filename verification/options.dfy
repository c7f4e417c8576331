/** The optional values the pages read from React state and queries
    (`tokenData?.token`, `authUser`, a route parameter, a query's `data`). */
module Options {

  /** An absent (`null`/`undefined`) or present value. */
  datatype Option<+T> = None | Some(value: T)
}
