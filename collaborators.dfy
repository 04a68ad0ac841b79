/** The parts of @loopback/context that the resolver calls but that are not
    part of this model (binding.ts and context.ts): a binding as the
    resolution session sees it, and a context reduced to its value lookup. */
module Collaborators {
  import opened JsValues
  import opened PromiseHelper

  /** A binding: compared by identity on the session's stack, it has a key and
      options (an object, or a promise of one). */
  class Binding {
    const key: string
    const options: VP

    constructor (key: string, options: VP)
      ensures this.key == key && this.options == options
    {
      this.key := key;
      this.options := options;
    }
  }

  /** A context as it stands at one moment: `valueOf` is
      `ctx.getValueOrPromise(key)` (a value, a promise, or a throw such as
      "not bound"), `deepProperty` is `Binding.getDeepProperty(value,
      path)`, which the options resolver calls, and `locked` tells whether
      the context's own binding of a key is locked. */
  datatype Context = Context(
    valueOf: string -> Completion<VP>,
    deepProperty: (Value, string) -> Value,
    locked: string -> bool)

  /** `ctx.get(key)`: the lookup as a native promise; a direct value fulfils
      it, a promise is adopted and a throw rejects it. */
  function Get(ctx: Context, key: string): (p: VP)
    ensures p.Later? && p.native
    ensures p.outcome == Await(ctx.valueOf(key))
  {
    Later(true, Await(ctx.valueOf(key)))
  }

  /** The error `ctx.bind(key)` throws when the binding of `key` is locked. */
  function LockedBinding(key: string): Value {
    NewError("Cannot rebind key \"" + key + "\" to a locked binding")
  }

  /** `ctx.bind(key).to(value)`: refused when the binding of `key` is
      locked; otherwise a new, unlocked binding makes `key` yield `value`
      directly, and every other key is as it was. */
  function BindConstant(ctx: Context, key: string, value: Value): (r: Completion<Context>)
    ensures r.Thrown? <==> ctx.locked(key)
    ensures r.Thrown? ==> r.error == LockedBinding(key)
    ensures r.Normal? ==> r.value.valueOf(key) == Normal(Now(value)) && !r.value.locked(key)
    ensures r.Normal? ==> forall k :: k != key ==> r.value.valueOf(k) == ctx.valueOf(k) && r.value.locked(k) == ctx.locked(k)
    ensures r.Normal? ==> r.value.deepProperty == ctx.deepProperty
  {
    if ctx.locked(key) then Thrown(LockedBinding(key))
    else
      Normal(Context(k => if k == key then Normal(Now(value)) else ctx.valueOf(k),
                     ctx.deepProperty,
                     k => if k == key then false else ctx.locked(k)))
  }
}
