/**
 * What a handler sends back: a status code and a body. Error bodies carry
 * the message tag and, for validation failures, the unstructured list of
 * offending field names.
 */
module Http {
  import opened Js

  datatype Body<+T> =
    | Record(value: T)
    | Records(values: seq<T>)
    | Error(message: string, issues: Option<seq<string>>)
    | Empty
    | Unauthenticated   // whatever the authentication gate sends with its 401

  datatype Reply<+T> = Reply(status: int, body: Body<T>)
}
