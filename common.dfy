/** Vocabulary shared by the slices, the pages and the transport layer. */
module Common {

  /** `T | null | undefined`: the client never distinguishes the two empty values. */
  datatype Option<+T> = None | Some(value: T) {
    function GetOr(default: T): T {
      match this
      case Some(v) => v
      case None => default
    }
  }

  /** A server-assigned `_id`. */
  type Id = string

  /** A JSON-like field value, as the server sends it inside a user record. */
  datatype Value =
    | Undefined
    | Null
    | Bool(b: bool)
    | Num(n: int)
    | Str(s: string)
    | List(items: seq<Value>)
    | Obj(fields: map<string, Value>)

  /** JavaScript truthiness of a value typed `string | null | undefined`. */
  predicate Truthy(s: Option<string>) {
    s.Some? && s.value != ""
  }

  /** A browser `File` as far as the pages look at it. */
  datatype File = File(name: string, mimeType: string, size: nat)

  /** How a dispatched async thunk settled. */
  datatype Settlement = Fulfilled | Rejected

  /** A transient notification (`showSuccess` / `showError`). */
  datatype Toast = SuccessToast(message: string) | ErrorToast(message: string)
}
