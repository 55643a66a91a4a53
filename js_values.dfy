/**
 * The untyped values the client reads out of the identity provider's user
 * metadata and session claims, with JavaScript's truthiness, and the user
 * object the client components see.
 */
module JsValues {
  import opened Common

  /** A JSON-like JavaScript value. Numbers are reals (NaN is not modelled). */
  datatype Value =
    | Undefined
    | Null
    | Bool(b: bool)
    | Num(n: real)
    | Str(s: string)
    | Arr(items: seq<Value>)
    | Obj(fields: map<string, Value>)

  /** JavaScript truthiness: `false`, `0`, `""`, `null` and `undefined` are falsy, everything else truthy. */
  predicate Truthy(v: Value) {
    match v
    case Undefined => false
    case Null => false
    case Bool(b) => b
    case Num(n) => n != 0.0
    case Str(s) => s != ""
    case Arr(_) => true
    case Obj(_) => true
  }

  /** A metadata object: property names to values. */
  type Metadata = map<string, Value>

  /** `m.key`: the property, or `undefined` when it is missing. */
  function Lookup(m: Metadata, key: string): (v: Value)
    ensures key !in m ==> v == Undefined
  {
    if key in m then m[key] else Undefined
  }

  /** The signed-in user as the client's `useUser()` hands it out. */
  datatype User = User(id: string, publicMetadata: Metadata)

  /** `user?.publicMetadata?.userType`: `undefined` when there is no user or no such key. */
  function UserTypeOf(user: Option<User>): (v: Value)
    ensures user.None? ==> v == Undefined
  {
    match user
    case None => Undefined
    case Some(u) => Lookup(u.publicMetadata, "userType")
  }

  /** The argument of the client's `updateUser` mutation. */
  datatype UpdateRequest = UpdateRequest(userId: string, publicMetadata: Metadata)

  /** The two roles the application knows. */
  datatype Role = Student | Teacher {
    /** The role's name as stored in `userType`. */
    function Name(): string {
      match this
      case Student => "student"
      case Teacher => "teacher"
    }
  }
}
