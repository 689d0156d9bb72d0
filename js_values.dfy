/** JavaScript values, as far as the loader looks at them. */
module Js {

  datatype Option<T> = None | Some(value: T)

  /**
   * An argument handed through the proxy. The loader only ever asks whether
   * a value is undefined or null (destructuring those throws) and reads two
   * string properties of the first argument of `setup`; any other primitive
   * behaves like a string here (it has neither property).
   */
  datatype Arg =
    | Undefined
    | Null
    | Text(s: string)
    | Object(props: map<string, string>)

  /** Whether `const { key } = v` can run at all: destructuring undefined or null throws a TypeError. */
  predicate Destructurable(v: Arg) {
    !v.Undefined? && !v.Null?
  }

  /** `v[key]` on a destructurable value: a string property, or undefined. */
  function Property(v: Arg, key: string): Option<string>
    requires Destructurable(v)
  {
    if v.Object? && key in v.props then Some(v.props[key]) else None
  }

  /** JavaScript truthiness of a property read: undefined and "" are falsy. */
  predicate Truthy(p: Option<string>) {
    p.Some? && p.value != ""
  }

  /** `v` is an object whose property `key` is a non-empty string. */
  predicate HasNonEmpty(v: Arg, key: string) {
    v.Object? && key in v.props && |v.props[key]| > 0
  }

  /** The first argument of a call, or undefined when there is none. */
  function First(args: seq<Arg>): Arg {
    if |args| == 0 then Undefined else args[0]
  }
}
