/** The few JavaScript value semantics the session relies on: truthiness,
    property reads through optional chaining, strict equality and
    `String.prototype.startsWith`. */
module JsValues {

  datatype Option<T> = None | Some(value: T)

  /** A JavaScript value as far as the session inspects one. Numbers are
      integers here; objects are compared structurally. */
  datatype Js =
    | Undefined
    | Null
    | Bool(b: bool)
    | Num(n: int)
    | Str(s: string)
    | Obj(props: map<string, Js>)

  predicate Nullish(v: Js) {
    v.Undefined? || v.Null?
  }

  /** JavaScript's `!!v`. */
  predicate Truthy(v: Js) {
    match v
    case Undefined => false
    case Null => false
    case Bool(b) => b
    case Num(n) => n != 0
    case Str(s) => s != ""
    case Obj(_) => true
  }

  /** `v.key` on a value that is neither `null` nor `undefined`: only objects
      carry the properties the session reads. */
  function Property(v: Js, key: string): (r: Js)
    requires !Nullish(v)
    ensures r != Undefined ==> v.Obj? && key in v.props && r == v.props[key]
    ensures v.Obj? && key in v.props ==> r == v.props[key]
  {
    if v.Obj? && key in v.props then v.props[key] else Undefined
  }

  /** The three ways `v?.type.startsWith(prefix)` can end. */
  datatype Test = Holds | Fails | Throws

  /** `v?.type.startsWith(prefix)`: the optional chain short-circuits to
      `undefined` (falsy) on a nullish `v`; on any other value whose `type` is
      not a string, `startsWith` is not a function and the call throws. */
  function TypeStartsWith(v: Js, prefix: string): (r: Test)
    ensures r == Holds <==> !Nullish(v) && Property(v, "type").Str? && prefix <= Property(v, "type").s
    ensures r == Throws <==> !Nullish(v) && !Property(v, "type").Str?
    ensures Nullish(v) ==> r == Fails
  {
    if Nullish(v) then Fails
    else
      match Property(v, "type")
      case Str(t) => if prefix <= t then Holds else Fails
      case _ => Throws
  }

  /** `v?.type === t`. */
  predicate TypeIs(v: Js, t: string) {
    !Nullish(v) && Property(v, "type") == Str(t)
  }

  /** The object literal `{ type: t }`. */
  function Typed(t: string): (v: Js)
    ensures TypeIs(v, t)
  {
    Obj(map["type" := Str(t)])
  }

  const KeyHandshake := "key_handshake"
  const KeyHandshakeStart := "key_handshake_start"

  /** A message the key exchange owns: its type starts with `key_handshake`. */
  predicate HandshakeTagged(v: Js) {
    TypeStartsWith(v, KeyHandshake) == Holds
  }

  /** A `key_handshake_start` request is itself a handshake message. */
  lemma StartRequestIsTagged(v: Js)
    requires TypeIs(v, KeyHandshakeStart)
    ensures HandshakeTagged(v)
  {
  }

  /** The application messages the session sends itself are not handshake
      messages, so they can never go out verbatim. */
  lemma SessionMessagesNotTagged()
    ensures !HandshakeTagged(Typed("ready"))
    ensures !HandshakeTagged(Typed("pause"))
    ensures TypeStartsWith(Typed("ready"), KeyHandshake) == Fails
    ensures TypeStartsWith(Typed("pause"), KeyHandshake) == Fails
  {
  }
}
