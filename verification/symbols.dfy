/** Strings, JSON values and hashes as the coordination code sees them.

    SHA-256 digests, derived child operation ids and `str()` of a non-string
    are free constructors of `Text`: equal terms denote equal strings, and two
    different terms denote different strings. That is exactly the collision
    freedom the Python code relies on, and nothing else about the encodings. */
module Symbols {

  datatype Option<+T> = None | Some(value: T)

  datatype Result<+T, +E> = Ok(value: T) | Err(error: E)

  /** The only child roles a coordination operation may name. */
  datatype Role = Candidate | Active | Winner | Loser

  datatype Text =
    | Plain(chars: string)
    | ChildId(parent: Text, role: Role)   // derive_active_session_child_operation_id
    | Digest(of: map<string, Json>)       // canonical_payload_hash
    | Repr(shown: Json)                    // str() of a value that is not a string

  datatype Json =
    | Null
    | Bool(b: bool)
    | Int(n: int)
    | Str(text: Text)
    | Arr(items: seq<Json>)
    | Obj(fields: map<string, Json>)

  type Payload = map<string, Json>

  function Lookup<K, V>(table: map<K, V>, key: K): Option<V> {
    if key in table then Some(table[key]) else None
  }

  /** `mapping.get(key)`: a missing key reads as null. */
  function Get(payload: Payload, key: string): Json {
    if key in payload then payload[key] else Null
  }

  /** `str(value)`. */
  function PyStr(value: Json): Text {
    if value.Str? then value.text else Repr(value)
  }

  predicate Empty(text: Text) {
    text == Plain("")
  }

  /** Python truthiness of a JSON value. */
  predicate Truthy(value: Json) {
    match value
    case Null => false
    case Bool(b) => b
    case Int(n) => n != 0
    case Str(text) => !Empty(text)
    case Arr(items) => items != []
    case Obj(fields) => fields != map[]
  }

  /** The payload with these keys left out. */
  function Without(payload: Payload, keys: set<string>): (r: Payload)
    ensures r.Keys == payload.Keys - keys
    ensures forall key :: key in r ==> r[key] == payload[key]
  {
    map key | key in payload && key !in keys :: payload[key]
  }

  predicate HexDigit(c: char) {
    '0' <= c <= '9' || 'a' <= c <= 'f'
  }

  /** 64 lowercase hex characters. */
  predicate IsHash(text: Text) {
    match text
    case Digest(_) => true
    case Plain(chars) => |chars| == 64 && forall i :: 0 <= i < |chars| ==> HexDigit(chars[i])
    case _ => false
  }

  /** Printable ASCII without spaces, 1 to 128 characters; a derived child id
      is bounded to that shape whenever its parent has it. */
  predicate IsOperationId(text: Text) {
    match text
    case Plain(chars) =>
      1 <= |chars| <= 128 && forall i :: 0 <= i < |chars| ==> '!' <= chars[i] <= '~'
    case ChildId(parent, _) => IsOperationId(parent)
    case Digest(_) => true
    case Repr(_) => false
  }
}
