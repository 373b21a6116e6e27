// Swift optionals (`Data?`, `URLResponse?`, `Error?`, the `URL?` that `URLComponents.url` yields)
// as a two-case datatype.
module Wrappers {

  datatype Option<+T> = None | Some(value: T)
}
