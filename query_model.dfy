/** The query a client submits to the gateway: an ordered list of filters,
    each a field name, an operator and a value. The operator is kept as the
    string the client sent; the middleware compares it with "==" and never
    validates it further. */
module QueryModel {

  datatype Option<+T> = None | Some(value: T)

  /** A filter value as bound from the request body. A JSON string binds
      to `Text`; any other JSON value (number, boolean, null, array, object)
      is kept as its raw text in `Json`. The gateway builds only one value
      itself, the tenant string of the injected subdomain filter, and
      inspects none. */
  datatype Value = Text(s: string) | Json(raw: string)

  datatype Filter = Filter(field: string, op: string, value: Value)

  datatype QueryOptions = QueryOptions(filters: seq<Filter>)

  /** Result of binding the request body as query options: either the decode
      diagnostic or the options. */
  datatype Binding = BindError(details: string) | Bound(options: QueryOptions)
}
