/** inject.ts: the `@inject` decorator and its placement checks, the
    descriptors it records, the built-in getter, setter and options resolvers,
    and the defaults of `describeInjectedArguments/Properties`. */
module Inject {
  import opened JsValues
  import opened JsStrings
  import opened PromiseHelper
  import opened Collaborators

  /** What a resolver function may read of the resolution session: the
      binding stack and the injection path. */
  datatype SessionView = SessionView(bindings: seq<Binding>, injectionNames: seq<string>)

  /** `session.binding`: the top of the binding stack. */
  function CurrentBinding(view: SessionView): (b: Option<Binding>)
    ensures view.bindings == [] <==> b.None?
    ensures b.Some? ==> b.value == view.bindings[|view.bindings| - 1]
  {
    if view.bindings == [] then None else Some(view.bindings[|view.bindings| - 1])
  }

  /** A resolver function (`ResolverFunction`): one of the three built in
      here, or a custom one, which receives the context, the injection's key
      and metadata, and the session. */
  datatype ResolverFn =
    | AsGetter
    | AsSetter
    | AsOptions
    | Custom(fn: (Context, string, Value, Option<SessionView>) -> Completion<VP>)

  /** An injection descriptor `{bindingKey, metadata, resolve}`, with the
      name of the slot it decorates (`DecoratorFactory.getTargetName`, used
      only for the injection path). `metadata` is `Undefined` when absent. */
  datatype Injection = Injection(
    bindingKey: string,
    metadata: Value,
    resolve: Option<ResolverFn>,
    targetName: string)

  /** The arguments given to `inject(bindingKey, metadata, resolve)`. */
  datatype InjectArgs = InjectArgs(bindingKey: string, metadata: Value, resolve: Option<ResolverFn>)

  /** The object a decorator is applied to: a class constructor (the member
      is static) or a prototype, with the class name. */
  datatype DecoratedTarget = DecoratedTarget(isConstructor: bool, name: string)

  /** The decorator's third argument. */
  datatype ThirdArgument = ParameterIndex(index: int) | MethodDescriptor | NoThirdArgument

  /** What `inject` writes into the metadata store. */
  datatype Recorded =
    | ParameterRecord(member: Option<string>, index: int, injection: Injection)
    | PropertyRecord(property: string, injection: Injection)

  /** Whether a property key is truthy (a symbol is written as a non-empty
      name). */
  predicate KeyGiven(propertyKey: Option<string>) {
    propertyKey.Some? && propertyKey.value != ""
  }

  /** The decorator returned by `inject(args...)` applied to
      `(target, propertyKey, third)`; `siteName` is the slot's name for the
      injection path. A numeric third argument records a parameter
      descriptor; otherwise a static property, a method, or a missing key is
      refused, and a property descriptor is recorded. */
  function ApplyInject(
    args: InjectArgs, target: DecoratedTarget, propertyKey: Option<string>,
    third: ThirdArgument, siteName: string): (r: Completion<Recorded>)
    ensures third.ParameterIndex? ==>
              r == Normal(ParameterRecord(propertyKey, third.index,
                     Injection(args.bindingKey, args.metadata, args.resolve, siteName)))
    ensures !third.ParameterIndex? && KeyGiven(propertyKey) && target.isConstructor ==>
              r == Thrown(NewError("@inject is not supported for a static property: " +
                                   target.name + "." + propertyKey.value))
    ensures !third.ParameterIndex? && KeyGiven(propertyKey) && !target.isConstructor && third.MethodDescriptor? ==>
              r == Thrown(NewError("@inject cannot be used on a method: " + propertyKey.value))
    ensures !third.ParameterIndex? && KeyGiven(propertyKey) && !target.isConstructor && third.NoThirdArgument? ==>
              r == Normal(PropertyRecord(propertyKey.value,
                     Injection(args.bindingKey, args.metadata, args.resolve, siteName)))
    ensures !third.ParameterIndex? && !KeyGiven(propertyKey) ==>
              r == Thrown(NewError("@inject can only be used on a property or a method parameter"))
    ensures r.Normal? && r.value.PropertyRecord? ==>
              third.NoThirdArgument? && !target.isConstructor && KeyGiven(propertyKey) &&
              r.value.property == propertyKey.value
    ensures r.Normal? ==> r.value.injection.bindingKey == args.bindingKey &&
                          r.value.injection.resolve == args.resolve
  {
    var injection := Injection(args.bindingKey, args.metadata, args.resolve, siteName);
    if third.ParameterIndex? then Normal(ParameterRecord(propertyKey, third.index, injection))
    else if KeyGiven(propertyKey) then
      if target.isConstructor then
        Thrown(NewError("@inject is not supported for a static property: " + target.name + "." + propertyKey.value))
      else if third.MethodDescriptor? then
        Thrown(NewError("@inject cannot be used on a method: " + propertyKey.value))
      else
        Normal(PropertyRecord(propertyKey.value, injection))
    else
      Thrown(NewError("@inject can only be used on a property or a method parameter"))
  }

  /** `inject.getter(bindingKey, metadata)` */
  function InjectGetter(bindingKey: string, metadata: Value): (a: InjectArgs)
    ensures a.bindingKey == bindingKey && a.metadata == metadata && a.resolve == Some(AsGetter)
  {
    InjectArgs(bindingKey, metadata, Some(AsGetter))
  }

  /** `inject.setter(bindingKey, metadata)` */
  function InjectSetter(bindingKey: string, metadata: Value): (a: InjectArgs)
    ensures a.bindingKey == bindingKey && a.metadata == metadata && a.resolve == Some(AsSetter)
  {
    InjectArgs(bindingKey, metadata, Some(AsSetter))
  }

  /** `inject.options(bindingKey?, metadata)`: a missing key is `''`, the
      whole options object. */
  function InjectOptions(bindingKey: Option<string>, metadata: Value): (a: InjectArgs)
    ensures bindingKey.None? ==> a.bindingKey == ""
    ensures bindingKey.Some? ==> a.bindingKey == bindingKey.value
    ensures a.resolve == Some(AsOptions)
  {
    InjectArgs(bindingKey.GetOr(""), metadata, Some(AsOptions))
  }

  /** `resolveAsGetter`: a function of no arguments that looks the key up
      when it is called, outside the session. */
  function ResolveAsGetter(injection: Injection): (r: VP)
    ensures r == Now(Fn(GetterFn(injection.bindingKey)))
  {
    Now(Fn(GetterFn(injection.bindingKey)))
  }

  /** Calling the getter closure: a fresh `ctx.get(key)` on the context as it
      stands at the call. */
  function CallGetter(ctx: Context, key: string): (p: VP)
    ensures p.Later? && p.outcome == Await(ctx.valueOf(key))
  {
    Get(ctx, key)
  }

  /** `resolveAsSetter`: a function of one argument that binds the key to it. */
  function ResolveAsSetter(injection: Injection): (r: VP)
    ensures r == Now(Fn(SetterFn(injection.bindingKey)))
  {
    Now(Fn(SetterFn(injection.bindingKey)))
  }

  /** Calling the setter closure with `value`: `ctx.bind(key).to(value)`,
      which throws for a locked binding; otherwise the context afterwards,
      and the closure's result `undefined`. */
  function CallSetter(ctx: Context, key: string, value: Value): (r: Completion<(Context, Value)>)
    ensures ctx.locked(key) ==> r == Thrown(LockedBinding(key))
    ensures !ctx.locked(key) ==> r.Normal? && r.value.1 == Undefined
    ensures r.Normal? ==> r.value.0.valueOf(key) == Normal(Now(value))
    ensures r.Normal? ==> forall k :: k != key ==> r.value.0.valueOf(k) == ctx.valueOf(k)
  {
    match BindConstant(ctx, key, value)
    case Thrown(e) => Thrown(e)
    case Normal(c) => Normal((c, Undefined))
  }

  /** A getter called after its key was set through a setter sees the value
      that was set, whatever the key held when the getter was made. */
  lemma GetterSeesSetterValue(ctx: Context, key: string, value: Value)
    requires !ctx.locked(key)
    ensures CallSetter(ctx, key, value).Normal?
    ensures CallGetter(CallSetter(ctx, key, value).value.0, key) == Later(true, Fulfilled(value))
  {
  }

  /** Calling a function value on the context as it stands at the call: the
      getter closure ignores its arguments, the setter closure takes its
      first (`undefined` when none is given). The result is the context
      afterwards with what the call returns, or what it throws. Other
      functions are not part of this model (`None`). */
  function CallFn(ctx: Context, f: Callable, args: seq<Value>): (r: Option<Completion<(Context, VP)>>)
    ensures r.None? <==> f.UserFn?
  {
    match f
    case GetterFn(key) => Some(Normal((ctx, CallGetter(ctx, key))))
    case SetterFn(key) =>
      var value := if args == [] then Undefined else args[0];
      Some(match CallSetter(ctx, key, value)
           case Thrown(e) => Thrown(e)
           case Normal((c, u)) => Normal((c, Now(u))))
    case UserFn(_) => None
  }

  /** What the getter resolver injects, when called, looks the injection's
      key up afresh and changes nothing. */
  lemma InjectedGetterCall(ctx: Context, injection: Injection, args: seq<Value>)
    ensures CallFn(ctx, ResolveAsGetter(injection).value.fn, args) ==
            Some(Normal((ctx, Later(true, Await(ctx.valueOf(injection.bindingKey))))))
  {
  }

  /** What the setter resolver injects, when called with a value, binds the
      injection's key to it and returns `undefined`, or throws when that
      binding is locked. */
  lemma InjectedSetterCall(ctx: Context, injection: Injection, value: Value)
    ensures var r := CallFn(ctx, ResolveAsSetter(injection).value.fn, [value]);
            && r.Some?
            && (ctx.locked(injection.bindingKey) ==> r.value == Thrown(LockedBinding(injection.bindingKey)))
            && (!ctx.locked(injection.bindingKey) ==>
                  r.value.Normal? && r.value.value.1 == Now(Undefined) &&
                  r.value.value.0.valueOf(injection.bindingKey) == Normal(Now(value)))
  {
  }

  /** Injected as a setter and a getter of one unlocked key, a value passed
      to the setter is what the getter's next call yields. */
  lemma InjectedSetterThenGetter(ctx: Context, injection: Injection, value: Value)
    requires !ctx.locked(injection.bindingKey)
    ensures var setter := CallFn(ctx, ResolveAsSetter(injection).value.fn, [value]);
            && setter.Some? && setter.value.Normal?
            && (var after := setter.value.value.0;
                CallFn(after, ResolveAsGetter(injection).value.fn, []) == Some(Normal((after, Later(true, Fulfilled(value))))))
  {
    GetterSeesSetterValue(ctx, injection.bindingKey, value);
  }

  /** The options path: one leading `#` removed, every other `#` turned
      into `.`. */
  function OptionsPath(bindingKey: string): (path: string)
  {
    var stripped := if StartsWith(bindingKey, "#") then bindingKey[1..] else bindingKey;
    ReplaceAll(stripped, '#', '.')
  }

  /** The options path has no `#` left: it is the key without its leading
      `#`, with `.` for every other `#`. */
  lemma OptionsPathChars(bindingKey: string)
    ensures var path := OptionsPath(bindingKey);
            && '#' !in path
            && (StartsWith(bindingKey, "#") ==> |path| == |bindingKey| - 1)
            && (!StartsWith(bindingKey, "#") ==> |path| == |bindingKey|)
            && forall i :: 0 <= i < |path| ==>
                 var c := bindingKey[if StartsWith(bindingKey, "#") then i + 1 else i];
                 path[i] == if c == '#' then '.' else c
  {
  }

  /** `resolveAsOptions`: outside a binding it injects `undefined`; inside
      one it looks the path up in the current binding's options, after they
      settle when they are a promise. */
  function ResolveAsOptions(ctx: Context, injection: Injection, session: Option<SessionView>): (r: VP)
  {
    if session.None? || CurrentBinding(session.value).None? then Now(Undefined)
    else
      var path := OptionsPath(injection.bindingKey);
      var options := CurrentBinding(session.value).value.options;
      if IsPromise(options) then
        match options.outcome
        case Fulfilled(o) => Later(options.native, Fulfilled(ctx.deepProperty(o, path)))
        case Rejected(_) => options
      else Now(ctx.deepProperty(options.value, path))
  }

  /** What the options resolver injects: `undefined` without a current
      binding; otherwise the value at the options path of the binding's
      options, as a promise when the options are one, and a rejection of
      the options passed on. */
  lemma ResolveAsOptionsCases(ctx: Context, injection: Injection, session: Option<SessionView>)
    ensures var r := ResolveAsOptions(ctx, injection, session);
            && (session.None? || session.value.bindings == [] ==> r == Now(Undefined))
            && (session.Some? && session.value.bindings != [] ==>
                  var options := session.value.bindings[|session.value.bindings| - 1].options;
                  var path := OptionsPath(injection.bindingKey);
                  match options
                  case Now(o) => r == Now(ctx.deepProperty(o, path))
                  case Later(n, Fulfilled(o)) => r == Later(n, Fulfilled(ctx.deepProperty(o, path)))
                  case Later(n, Rejected(c)) => r == options)
  {
  }

  /** Two sessions whose current bindings carry the same options inject the
      same option; so two bindings of one class with different options
      inject what their own options hold. */
  lemma OptionsFollowCurrentBinding(ctx: Context, injection: Injection, s1: SessionView, s2: SessionView)
    requires s1.bindings != [] && s2.bindings != []
    requires s1.bindings[|s1.bindings| - 1].options == s2.bindings[|s2.bindings| - 1].options
    ensures ResolveAsOptions(ctx, injection, Some(s1)) == ResolveAsOptions(ctx, injection, Some(s2))
  {
  }

  /** Running the resolver function of an injection. */
  function RunResolver(rf: ResolverFn, ctx: Context, injection: Injection, session: Option<SessionView>): (r: Completion<VP>)
  {
    match rf
    case AsGetter => Normal(ResolveAsGetter(injection))
    case AsSetter => Normal(ResolveAsSetter(injection))
    case AsOptions => Normal(ResolveAsOptions(ctx, injection, session))
    case Custom(fn) => fn(ctx, injection.bindingKey, injection.metadata, session)
  }

  /** `describeInjectedArguments`: the parameter descriptors recorded for a
      method (a sparse array: `None` marks a slot without one), `[]` when
      none were recorded. */
  function DescribeInjectedArguments(recorded: Option<seq<Option<Injection>>>): (r: seq<Option<Injection>>)
    ensures recorded.None? ==> r == []
    ensures recorded.Some? ==> r == recorded.value
  {
    recorded.GetOr([])
  }

  /** `describeInjectedProperties`: the property descriptors recorded for a
      prototype, in enumeration order, `{}` when none were recorded. */
  function DescribeInjectedProperties(recorded: Option<seq<(string, Injection)>>): (r: seq<(string, Injection)>)
    ensures recorded.None? ==> r == []
    ensures recorded.Some? ==> r == recorded.value
  {
    recorded.GetOr([])
  }
}
