/** Small value types shared by the screens: JavaScript's "value or undefined",
    and the navigation targets the handlers ask for. */
module Shared {

  /** A value that may be `undefined` (or `null`) in the JavaScript source. */
  datatype Option<+T> = None | Some(value: T) {
    function GetOr(default: T): T {
      match this
      case Some(v) => v
      case None => default
    }
  }

  /** One transcript entry, `{sender, message, graph, table}`; every field may be
      missing in a record the server sends. */
  datatype Turn = Turn(sender: Option<string>, message: Option<string>,
                       graph: Option<string>, table: Option<string>)

  /** The routes a handler navigates to (`navigation.navigate(...)`). */
  datatype Route = Room(conversationId: string) | Home | Login

  /** JavaScript truthiness of an optional string: defined and not `''`. */
  predicate Truthy(s: Option<string>) {
    s.Some? && s.value != ""
  }

  /** `a` is `b` with some elements left out, the rest in their order. */
  predicate IsSublist<T(==)>(a: seq<T>, b: seq<T>)
    decreases |b|
  {
    if a == [] then true
    else if b == [] then false
    else (a[0] == b[0] && IsSublist(a[1..], b[1..])) || IsSublist(a, b[1..])
  }
}
