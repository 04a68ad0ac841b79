/** resolver.ts, part two: resolving the injected arguments of a constructor
    or method and the injected properties of a class, creating an instance
    with both, and invoking a method with injected arguments.

    Each of these resolves its injections one after another; an injection
    that resolves to a direct value is placed at once, and one that resolves
    to a promise is placed when the promise settles. The loops are proved
    equal to folds of one step over the slots, and the folds carry the
    properties. */
module Resolver {
  import opened JsValues
  import opened JsStrings
  import opened PromiseHelper
  import opened Collaborators
  import opened Inject
  import opened ResolverSession

  /** A class, prototype or instance as the resolver sees it through
      reflection and the metadata store: its name, the names of its members
      that are functions, the parameter descriptors recorded per method (`""`
      is the constructor), the declared number of parameters per method, the
      display name of a parameter slot (`DecoratorFactory.getTargetName`), the
      property descriptors recorded on the prototype, what the constructor
      does with its arguments (the own properties of the new instance, or a
      throw), and what calling a method does. */
  datatype Target = Target(
    name: string,
    methods: set<string>,
    parameterInjections: string -> Option<seq<Option<Injection>>>,
    parameterCount: string -> nat,
    slotName: (string, nat) -> string,
    propertyInjections: Option<seq<(string, Injection)>>,
    construct: seq<Value> -> Completion<map<string, Value>>,
    call: (string, seq<Value>) -> Completion<VP>)

  /** An injection resolved to a promise, for the slot `key`. */
  datatype Pending<K> = Pending(key: K, injection: Injection, promise: VP)

  /** A result, with the state of the session it was resolved in (`None`
      when there was no session). */
  datatype Resolved = Resolved(result: Completion<VP>, session: Option<SessionState>)

  /** The assertion `typeof target[method] === 'function'` fails with this. */
  function MethodNotFound(member: string): Value {
    NewError("Method " + member + " not found")
  }

  function MissingArgument(name: string, ix: nat): Value {
    NewError("Cannot resolve injected arguments for " + name + ": " +
             "The arguments[" + NatToString(ix) + "] is not decorated for dependency injection, " +
             "but a value is not supplied")
  }

  function MissingProperty(className: string, p: string): Value {
    NewError("Cannot resolve injected property for class " + className + ": " +
             "The property " + p + " was not decorated for dependency injection.")
  }

  predicate Rejects(p: VP) {
    p.Later? && p.outcome.Rejected?
  }

  predicate CarriesError(p: VP) {
    p.Later? && p.outcome.Fulfilled? && IsCarrier(p.outcome.value)
  }

  /** A promise whose setter callback places its value. */
  predicate Delivers(p: VP) {
    p.Later? && p.outcome.Fulfilled? && !IsCarrier(p.outcome.value)
  }

  /** The position of the first pending promise satisfying `f`, or the
      length when there is none. */
  function FirstWhere<K>(pending: seq<Pending<K>>, f: VP -> bool): (j: nat)
    ensures j <= |pending|
    ensures j < |pending| ==> f(pending[j].promise)
    ensures forall k :: 0 <= k < j ==> !f(pending[k].promise)
  {
    if pending == [] then 0
    else if f(pending[0].promise) then 0
    else 1 + FirstWhere(pending[1..], f)
  }

  /** `Promise.all(asyncResolvers).then(vals => vals.find(v => v instanceof
      RejectionError) || result)`: a rejection rejects the whole (taken in
      slot order), otherwise the first carrier is the value, otherwise
      `result` is, with every promise's value placed by its setter. */
  function Settle<K>(pending: seq<Pending<K>>, result: Value): (o: Outcome)
    ensures (exists j :: 0 <= j < |pending| && Rejects(pending[j].promise)) <==> o.Rejected?
    ensures o.Fulfilled? && IsCarrier(o.value) && !IsCarrier(result) ==>
              exists j :: 0 <= j < |pending| && pending[j].promise.Later? && pending[j].promise.outcome == o
    ensures (forall j :: 0 <= j < |pending| ==> Delivers(pending[j].promise)) ==> o == Fulfilled(result)
    ensures forall j :: 0 <= j < |pending| && CarriesError(pending[j].promise) &&
                        (forall k :: 0 <= k < |pending| ==> !Rejects(pending[k].promise)) &&
                        (forall k :: 0 <= k < j ==> !CarriesError(pending[k].promise)) ==>
              o == pending[j].promise.outcome
  {
    var r := FirstWhere(pending, Rejects);
    if r < |pending| then Rejected(pending[r].promise.outcome.cause)
    else
      var c := FirstWhere(pending, CarriesError);
      if c < |pending| then Fulfilled(pending[c].promise.outcome.value)
      else Fulfilled(result)
  }

  /** The injections of the pending slots, in slot order. */
  function PendingInjections<K>(pending: seq<Pending<K>>): (r: seq<Injection>)
    ensures |r| == |pending|
    ensures forall j :: 0 <= j < |pending| ==> r[j] == pending[j].injection
  {
    seq(|pending|, j requires 0 <= j < |pending| => pending[j].injection)
  }

  /** `resolve(ctx, injection, session)` with the session given by its
      state, or without one. */
  function ResolveIn(ctx: Context, injection: Injection, session: Option<SessionState>): Resolved
  {
    match session
    case None => Resolved(ResolveSpec(ctx, injection, EmptySession).result, None)
    case Some(s) =>
      var res := ResolveSpec(ctx, injection, s);
      Resolved(res.result, Some(res.after))
  }

  // ---------------------------------------------------------------------
  // Injected arguments

  /** The state of `resolveInjectedArguments` after some of its slots: the
      arguments placed so far (`undefined` for the slots still pending), how
      many non-injected arguments were used, the pending slots, the session,
      and the error thrown, if any. */
  datatype ArgsState = ArgsState(
    args: seq<Value>,
    nonInjectedIndex: nat,
    pending: seq<Pending<nat>>,
    session: Option<SessionState>,
    error: Option<Value>)

  function InjectionAt(injected: seq<Option<Injection>>, ix: nat): Option<Injection> {
    if ix < |injected| then injected[ix] else None
  }

  /** A slot that takes the next non-injected argument: it has no descriptor,
      or one with neither a key nor a resolver. */
  predicate Positional(injection: Option<Injection>) {
    injection.None? || (injection.value.bindingKey == "" && injection.value.resolve.None?)
  }

  /** The descriptors of a method's parameters. */
  function ArgInjections(t: Target, member: string): seq<Option<Injection>> {
    DescribeInjectedArguments(t.parameterInjections(member))
  }

  /** One turn of the loop over the argument slots, at slot `ix`. */
  function ArgStep(t: Target, member: string, ctx: Context, nonInjected: seq<Value>, s: ArgsState, ix: nat): ArgsState {
    if s.error.Some? then s
    else
      var injection := InjectionAt(ArgInjections(t, member), ix);
      if Positional(injection) then
        if s.nonInjectedIndex < |nonInjected| then
          s.(args := s.args + [nonInjected[s.nonInjectedIndex]], nonInjectedIndex := s.nonInjectedIndex + 1)
        else
          s.(error := Some(MissingArgument(t.slotName(member, ix), ix)))
      else
        var r := ResolveIn(ctx, injection.value, s.session);
        match r.result
        case Thrown(e) => s.(session := r.session, error := Some(e))
        case Normal(Now(v)) => s.(args := s.args + [v], session := r.session)
        case Normal(p) =>
          s.(args := s.args + [Undefined], pending := s.pending + [Pending(ix, injection.value, p)], session := r.session)
  }

  /** The state after the first `n` argument slots. */
  function ArgsFold(t: Target, member: string, ctx: Context, session: Option<SessionState>, nonInjected: seq<Value>, n: nat): ArgsState {
    if n == 0 then ArgsState([], 0, [], session, None)
    else ArgStep(t, member, ctx, nonInjected, ArgsFold(t, member, ctx, session, nonInjected, n - 1), n - 1)
  }

  /** A turn that does not throw either takes a non-injected argument, or
      places a direct value, or adds one pending slot; a promise pushes its
      injection onto the session and a direct value leaves the session as it
      was. */
  lemma ArgStepEffect(t: Target, member: string, ctx: Context, nonInjected: seq<Value>, s: ArgsState, ix: nat)
    requires s.error.None?
    ensures var next := ArgStep(t, member, ctx, nonInjected, s, ix);
            var injection := InjectionAt(ArgInjections(t, member), ix);
            && (next.session.Some? <==> s.session.Some?)
            && (next.error.None? && Positional(injection) ==>
                  next == s.(args := s.args + [nonInjected[s.nonInjectedIndex]], nonInjectedIndex := s.nonInjectedIndex + 1))
            && (next.error.None? && !Positional(injection) ==>
                  && next.nonInjectedIndex == s.nonInjectedIndex
                  && |next.args| == |s.args| + 1
                  && next.args[..|s.args|] == s.args
                  && (next.pending == s.pending ==> next.session == s.session)
                  && (next.pending != s.pending ==>
                        && next.pending == s.pending + [Pending(ix, injection.value, next.pending[|s.pending|].promise)]
                        && next.pending[|s.pending|].promise.Later?
                        && next.args[|s.args|] == Undefined
                        && (s.session.Some? ==>
                              next.session == Some(SessionState(s.session.value.bindings,
                                                                s.session.value.injections + [injection.value])))))
  {
  }

  /** The turn of an injected slot, given what resolving its injection
      gave. */
  lemma ArgStepResolved(t: Target, member: string, ctx: Context, nonInjected: seq<Value>, s: ArgsState, ix: nat, res: Resolved)
    requires s.error.None?
    requires !Positional(InjectionAt(ArgInjections(t, member), ix))
    requires res == ResolveIn(ctx, InjectionAt(ArgInjections(t, member), ix).value, s.session)
    ensures var next := ArgStep(t, member, ctx, nonInjected, s, ix);
            && next.session == res.session
            && (res.result.Thrown? ==> next.error == Some(res.result.error))
            && (res.result.Normal? ==> next.error.None? && next.nonInjectedIndex == s.nonInjectedIndex)
            && (res.result.Normal? && res.result.value.Now? ==>
                  next.args == s.args + [res.result.value.value] && next.pending == s.pending)
            && (res.result.Normal? && res.result.value.Later? ==>
                  && next.args == s.args + [Undefined]
                  && next.pending == s.pending + [Pending(ix, InjectionAt(ArgInjections(t, member), ix).value, res.result.value)])
  {
  }

  /** The turn of a positional slot: the next non-injected argument, or
      the error when none is left. */
  lemma ArgStepPositional(t: Target, member: string, ctx: Context, nonInjected: seq<Value>, s: ArgsState, ix: nat)
    requires s.error.None?
    requires Positional(InjectionAt(ArgInjections(t, member), ix))
    ensures ArgStep(t, member, ctx, nonInjected, s, ix) ==
            if s.nonInjectedIndex < |nonInjected| then
              s.(args := s.args + [nonInjected[s.nonInjectedIndex]], nonInjectedIndex := s.nonInjectedIndex + 1)
            else s.(error := Some(MissingArgument(t.slotName(member, ix), ix)))
  {
  }

  /** The arguments once every pending slot's setter has run. */
  function FillArgs(args: seq<Value>, pending: seq<Pending<nat>>): (r: seq<Value>)
    ensures |r| == |args|
    ensures forall i :: 0 <= i < |args| && (forall j :: 0 <= j < |pending| ==> pending[j].key != i) ==> r[i] == args[i]
    decreases |pending|
  {
    if pending == [] then args
    else
      var p := pending[0];
      var next := if p.key < |args| && Delivers(p.promise) then args[p.key := p.promise.outcome.value] else args;
      FillArgs(next, pending[1..])
  }

  /** What `resolveInjectedArguments` returns after its loop. */
  function FinishArgs(s: ArgsState): Completion<VP> {
    if s.error.Some? then Thrown(s.error.value)
    else if s.pending == [] then Normal(Now(Arr(s.args)))
    else Normal(Later(true, Settle(s.pending, Arr(FillArgs(s.args, s.pending)))))
  }

  /** `resolveInjectedArguments(target, member, ctx, session?,
      nonInjectedArgs)` */
  function ArgsResolved(t: Target, member: string, ctx: Context, session: Option<SessionState>, nonInjected: seq<Value>): Resolved {
    if member != "" && member !in t.methods then Resolved(Thrown(MethodNotFound(member)), session)
    else
      var s := ArgsFold(t, member, ctx, session, nonInjected, t.parameterCount(member));
      Resolved(FinishArgs(s), s.session)
  }

  /** How many of the first `n` slots take a non-injected argument. */
  function PositionalCount(injected: seq<Option<Injection>>, n: nat): nat {
    if n == 0 then 0
    else PositionalCount(injected, n - 1) + (if Positional(InjectionAt(injected, n - 1)) then 1 else 0)
  }

  /** Once the loop has thrown, the remaining slots change nothing. */
  lemma {:induction false} ArgsErrorSticks(t: Target, member: string, ctx: Context, session: Option<SessionState>, nonInjected: seq<Value>, m: nat, n: nat)
    requires m <= n
    requires ArgsFold(t, member, ctx, session, nonInjected, m).error.Some?
    ensures ArgsFold(t, member, ctx, session, nonInjected, n) == ArgsFold(t, member, ctx, session, nonInjected, m)
    decreases n
  {
    if n > m {
      ArgsErrorSticks(t, member, ctx, session, nonInjected, m, n - 1);
    }
  }

  /** A throw at some slot is what `resolveInjectedArguments` throws, with
      the session as the throw left it. */
  lemma ArgsThrown(t: Target, member: string, ctx: Context, session: Option<SessionState>, nonInjected: seq<Value>, m: nat)
    requires member == "" || member in t.methods
    requires m <= t.parameterCount(member)
    requires ArgsFold(t, member, ctx, session, nonInjected, m).error.Some?
    ensures var s := ArgsFold(t, member, ctx, session, nonInjected, m);
            ArgsResolved(t, member, ctx, session, nonInjected) == Resolved(Thrown(s.error.value), s.session)
  {
    ArgsErrorSticks(t, member, ctx, session, nonInjected, m, t.parameterCount(member));
  }

  /** After `n` slots without a throw: one argument per slot, and the
      non-injected arguments used are one per positional slot and did not
      run out. */
  lemma {:induction false} ArgsFoldCount(t: Target, member: string, ctx: Context, session: Option<SessionState>, nonInjected: seq<Value>, n: nat)
    ensures var s := ArgsFold(t, member, ctx, session, nonInjected, n);
            s.error.None? ==>
              && |s.args| == n
              && s.nonInjectedIndex == PositionalCount(ArgInjections(t, member), n)
              && s.nonInjectedIndex <= |nonInjected|
  {
    if n > 0 {
      ArgsFoldCount(t, member, ctx, session, nonInjected, n - 1);
      var prev := ArgsFold(t, member, ctx, session, nonInjected, n - 1);
      if prev.error.None? {
        ArgStepEffect(t, member, ctx, nonInjected, prev, n - 1);
      }
    }
  }

  /** After `n` slots without a throw, the pending slots are in increasing
      order, below `n`, and hold promises. */
  lemma {:induction false} ArgsFoldPending(t: Target, member: string, ctx: Context, session: Option<SessionState>, nonInjected: seq<Value>, n: nat)
    ensures var s := ArgsFold(t, member, ctx, session, nonInjected, n);
            s.error.None? ==>
              && (forall j :: 0 <= j < |s.pending| ==> s.pending[j].key < n && s.pending[j].promise.Later?)
              && (forall j, k :: 0 <= j < k < |s.pending| ==> s.pending[j].key < s.pending[k].key)
  {
    if n > 0 {
      ArgsFoldPending(t, member, ctx, session, nonInjected, n - 1);
      var prev := ArgsFold(t, member, ctx, session, nonInjected, n - 1);
      if prev.error.None? {
        ArgStepEffect(t, member, ctx, nonInjected, prev, n - 1);
      }
    }
  }

  /** The loop keeps the session's bindings and, until it throws, leaves
      exactly the pending injections pushed on top of where it started. */
  lemma {:induction false} ArgsFoldSession(t: Target, member: string, ctx: Context, session: Option<SessionState>, nonInjected: seq<Value>, n: nat)
    ensures var s := ArgsFold(t, member, ctx, session, nonInjected, n);
            && (s.session.Some? <==> session.Some?)
            && (s.error.None? && session.Some? ==>
                  s.session == Some(SessionState(session.value.bindings,
                                                 session.value.injections + PendingInjections(s.pending))))
  {
    if n > 0 {
      ArgsFoldSession(t, member, ctx, session, nonInjected, n - 1);
      var prev := ArgsFold(t, member, ctx, session, nonInjected, n - 1);
      var s := ArgsFold(t, member, ctx, session, nonInjected, n);
      if prev.error.None? {
        ArgStepEffect(t, member, ctx, nonInjected, prev, n - 1);
        var injection := InjectionAt(ArgInjections(t, member), n - 1);
        if s.error.None? && session.Some? && !Positional(injection) && s.pending != prev.pending {
          var init := session.value.injections;
          assert PendingInjections(s.pending) == PendingInjections(prev.pending) + [injection.value];
          assert init + PendingInjections(s.pending) == (init + PendingInjections(prev.pending)) + [injection.value];
        }
      }
    } else if session.Some? {
      assert session.value.injections + PendingInjections<nat>([]) == session.value.injections;
    }
  }

  /** A slot that takes a non-injected argument gets the next one in order:
      the `k`-th positional slot gets `nonInjected[k]`. */
  lemma {:induction false} SuppliedArgument(t: Target, member: string, ctx: Context, session: Option<SessionState>, nonInjected: seq<Value>, n: nat, i: nat)
    requires i < n
    requires ArgsFold(t, member, ctx, session, nonInjected, n).error.None?
    requires Positional(InjectionAt(ArgInjections(t, member), i))
    ensures PositionalCount(ArgInjections(t, member), i) < |nonInjected|
    ensures i < |ArgsFold(t, member, ctx, session, nonInjected, n).args| &&
            ArgsFold(t, member, ctx, session, nonInjected, n).args[i] ==
            nonInjected[PositionalCount(ArgInjections(t, member), i)]
  {
    var prev := ArgsFold(t, member, ctx, session, nonInjected, n - 1);
    assert prev.error.None?;
    ArgsFoldCount(t, member, ctx, session, nonInjected, n);
    ArgsFoldCount(t, member, ctx, session, nonInjected, n - 1);
    ArgStepEffect(t, member, ctx, nonInjected, prev, n - 1);
    if i < n - 1 {
      SuppliedArgument(t, member, ctx, session, nonInjected, n - 1, i);
    }
  }

  /** A slot injected from the context's binding of a key, which holds a
      direct value, gets that value at once and is not pending. */
  lemma {:induction false} DirectlyBoundArgument(t: Target, member: string, ctx: Context, session: Option<SessionState>, nonInjected: seq<Value>, n: nat, i: nat, v: Value)
    requires i < n
    requires ArgsFold(t, member, ctx, session, nonInjected, n).error.None?
    requires var injection := InjectionAt(ArgInjections(t, member), i);
             && injection.Some? && injection.value.bindingKey != "" && injection.value.resolve.None?
             && ctx.valueOf(injection.value.bindingKey) == Normal(Now(v))
    ensures i < |ArgsFold(t, member, ctx, session, nonInjected, n).args| &&
            ArgsFold(t, member, ctx, session, nonInjected, n).args[i] == v
    ensures forall j :: 0 <= j < |ArgsFold(t, member, ctx, session, nonInjected, n).pending| ==>
              ArgsFold(t, member, ctx, session, nonInjected, n).pending[j].key != i
  {
    var prev := ArgsFold(t, member, ctx, session, nonInjected, n - 1);
    assert prev.error.None?;
    ArgsFoldCount(t, member, ctx, session, nonInjected, n - 1);
    ArgsFoldPending(t, member, ctx, session, nonInjected, n - 1);
    if i < n - 1 {
      DirectlyBoundArgument(t, member, ctx, session, nonInjected, n - 1, i, v);
      ArgStepEffect(t, member, ctx, nonInjected, prev, n - 1);
    } else {
      var res := ResolveIn(ctx, InjectionAt(ArgInjections(t, member), i).value, prev.session);
      assert res.result == Normal(Now(v));
      ArgStepResolved(t, member, ctx, nonInjected, prev, n - 1, res);
    }
  }

  /** A method without parameter descriptors takes its arguments from the
      non-injected ones: the first `n` of them when there are enough, and
      otherwise the first slot without one is reported missing. */
  lemma PlainParameters(t: Target, member: string, ctx: Context, session: Option<SessionState>, nonInjected: seq<Value>)
    requires member == "" || member in t.methods
    requires t.parameterInjections(member).None?
    ensures var n := t.parameterCount(member);
            ArgsResolved(t, member, ctx, session, nonInjected) ==
              if n <= |nonInjected| then Resolved(Normal(Now(Arr(nonInjected[..n]))), session)
              else Resolved(Thrown(MissingArgument(t.slotName(member, |nonInjected|), |nonInjected|)), session)
  {
    PlainFold(t, member, ctx, session, nonInjected, t.parameterCount(member));
  }

  lemma {:induction false} PlainFold(t: Target, member: string, ctx: Context, session: Option<SessionState>, nonInjected: seq<Value>, n: nat)
    requires t.parameterInjections(member).None?
    ensures ArgsFold(t, member, ctx, session, nonInjected, n) ==
              if n <= |nonInjected| then ArgsState(nonInjected[..n], n, [], session, None)
              else ArgsState(nonInjected, |nonInjected|, [], session,
                             Some(MissingArgument(t.slotName(member, |nonInjected|), |nonInjected|)))
  {
    if n > 0 {
      PlainFold(t, member, ctx, session, nonInjected, n - 1);
      if n <= |nonInjected| {
        assert nonInjected[..n] == nonInjected[..n - 1] + [nonInjected[n - 1]];
      } else if n - 1 == |nonInjected| {
        assert nonInjected[..n - 1] == nonInjected;
      }
    }
  }

  /** Each delivering pending slot's value lands in its slot once the
      setters have run. */
  lemma {:induction false} FillArgsPlaces(args: seq<Value>, pending: seq<Pending<nat>>, j: nat)
    requires j < |pending|
    requires forall a :: 0 <= a < |pending| ==> pending[a].key < |args|
    requires forall a, b :: 0 <= a < b < |pending| ==> pending[a].key < pending[b].key
    requires Delivers(pending[j].promise)
    ensures FillArgs(args, pending)[pending[j].key] == pending[j].promise.outcome.value
    decreases |pending|
  {
    var p := pending[0];
    var next := if p.key < |args| && Delivers(p.promise) then args[p.key := p.promise.outcome.value] else args;
    if j == 0 {
      assert forall a :: 0 <= a < |pending[1..]| ==> pending[1..][a].key != p.key by {
        forall a | 0 <= a < |pending[1..]| ensures pending[1..][a].key != p.key {
          assert pending[1..][a] == pending[a + 1];
        }
      }
    } else {
      FillArgsPlaces(next, pending[1..], j - 1);
    }
  }

  /** When every injection of a method resolves, some of them to promises
      that all fulfil with plain values, the arguments promise fulfils with
      each value in its own slot. */
  lemma AsyncArgumentsFilled(t: Target, member: string, ctx: Context, session: Option<SessionState>, nonInjected: seq<Value>, j: nat)
    requires member == "" || member in t.methods
    requires var s := ArgsFold(t, member, ctx, session, nonInjected, t.parameterCount(member));
             s.error.None? && j < |s.pending| && forall k :: 0 <= k < |s.pending| ==> Delivers(s.pending[k].promise)
    ensures var s := ArgsFold(t, member, ctx, session, nonInjected, t.parameterCount(member));
            var r := ArgsResolved(t, member, ctx, session, nonInjected).result;
            && r.Normal? && r.value.Later? && r.value.native && r.value.outcome.Fulfilled?
            && r.value.outcome.value.Arr?
            && |r.value.outcome.value.elems| == t.parameterCount(member)
            && s.pending[j].key < t.parameterCount(member)
            && r.value.outcome.value.elems[s.pending[j].key] == s.pending[j].promise.outcome.value
  {
    var n := t.parameterCount(member);
    ArgsFoldCount(t, member, ctx, session, nonInjected, n);
    ArgsFoldPending(t, member, ctx, session, nonInjected, n);
    var s := ArgsFold(t, member, ctx, session, nonInjected, n);
    FinishFillsArgs(s, j);
  }

  lemma FinishFillsArgs(s: ArgsState, j: nat)
    requires s.error.None? && j < |s.pending|
    requires forall a :: 0 <= a < |s.pending| ==> s.pending[a].key < |s.args|
    requires forall a, b :: 0 <= a < b < |s.pending| ==> s.pending[a].key < s.pending[b].key
    requires forall k :: 0 <= k < |s.pending| ==> Delivers(s.pending[k].promise)
    ensures FinishArgs(s) == Normal(Later(true, Fulfilled(Arr(FillArgs(s.args, s.pending)))))
    ensures s.pending[j].key < |s.args| && FillArgs(s.args, s.pending)[s.pending[j].key] == s.pending[j].promise.outcome.value
  {
    FillArgsPlaces(s.args, s.pending, j);
  }

  /** A method's argument resolution that hands out a carrier (a rejected
      native promise in some slot, and no rejected promise of another
      library) fulfils with the first such carrier in slot order. */
  lemma ArgumentsCarryFirstError(t: Target, member: string, ctx: Context, session: Option<SessionState>, nonInjected: seq<Value>, j: nat)
    requires member == "" || member in t.methods
    requires var s := ArgsFold(t, member, ctx, session, nonInjected, t.parameterCount(member));
             && s.error.None? && j < |s.pending| && CarriesError(s.pending[j].promise)
             && (forall k :: 0 <= k < |s.pending| ==> !Rejects(s.pending[k].promise))
             && (forall k :: 0 <= k < j ==> !CarriesError(s.pending[k].promise))
    ensures var s := ArgsFold(t, member, ctx, session, nonInjected, t.parameterCount(member));
            ArgsResolved(t, member, ctx, session, nonInjected).result ==
              Normal(Later(true, Fulfilled(s.pending[j].promise.outcome.value)))
  {
    var s := ArgsFold(t, member, ctx, session, nonInjected, t.parameterCount(member));
    assert FirstWhere(s.pending, Rejects) == |s.pending|;
    assert FirstWhere(s.pending, CarriesError) == j;
  }

  /** The body of the loop of `resolveInjectedArguments` at slot `ix`: a
      positional slot takes the next non-injected argument or throws when
      there is none left; an injected slot is resolved in the session and its
      value written into `args`, or the slot is added to the pending ones
      when the value is a promise, or the throw is reported. `st` is the
      state before the turn; the turn does what `ArgStep` says. */
  method ResolveSlot(
    t: Target, member: string, ctx: Context, session: ResolutionSession?, nonInjectedArgs: seq<Value>,
    injection: Option<Injection>, ix: nat, args: array<Value>, nonInjectedIndex: nat,
    asyncResolvers: seq<Pending<nat>>, ghost st: ArgsState)
    returns (thrown: Option<Value>, nextIndex: nat, nextResolvers: seq<Pending<nat>>)
    requires injection == InjectionAt(ArgInjections(t, member), ix)
    requires ix < args.Length && args[ix] == Undefined
    requires st.error.None? && st.args == args[..ix]
    requires st.nonInjectedIndex == nonInjectedIndex && st.pending == asyncResolvers
    requires st.session == if session == null then None else Some(session.State())
    modifies args, session
    ensures var next := ArgStep(t, member, ctx, nonInjectedArgs, st, ix);
            && next.error == thrown
            && next.session == (if session == null then None else Some(session.State()))
            && (thrown.None? ==>
                  next.args == args[..ix + 1] && next.nonInjectedIndex == nextIndex && next.pending == nextResolvers)
    ensures forall k :: 0 <= k < args.Length && k != ix ==> args[k] == old(args[k])
  {
    nextIndex, nextResolvers := nonInjectedIndex, asyncResolvers;
    if Positional(injection) {
      ArgStepPositional(t, member, ctx, nonInjectedArgs, st, ix);
      if nonInjectedIndex < |nonInjectedArgs| {
        args[ix] := nonInjectedArgs[nonInjectedIndex];
        nextIndex := nonInjectedIndex + 1;
      } else {
        return Some(MissingArgument(t.slotName(member, ix), ix)), nextIndex, nextResolvers;
      }
    } else {
      ghost var expected := ResolveIn(ctx, injection.value, st.session);
      var valueOrPromise, exitPending := Resolve(ctx, injection.value, session);
      assert valueOrPromise == expected.result;
      ArgStepResolved(t, member, ctx, nonInjectedArgs, st, ix, expected);
      if valueOrPromise.Thrown? {
        return Some(valueOrPromise.error), nextIndex, nextResolvers;
      }
      if IsPromise(valueOrPromise.value) {
        nextResolvers := asyncResolvers + [Pending(ix, injection.value, valueOrPromise.value)];
      } else {
        args[ix] := valueOrPromise.value.value;
      }
    }
    assert args[..ix + 1] == args[..ix] + [args[ix]];
    thrown := None;
  }

  /** `resolveInjectedArguments`: the method check, then one turn per
      parameter slot, then the result: the arguments when every slot was
      placed at once, a promise of them otherwise. */
  method ResolveInjectedArguments(t: Target, member: string, ctx: Context, session: ResolutionSession?, nonInjectedArgs: seq<Value>)
    returns (r: Completion<VP>)
    modifies session
    ensures session != null ==>
              var spec := ArgsResolved(t, member, ctx, Some(old(session.State())), nonInjectedArgs);
              r == spec.result && spec.session == Some(session.State())
    ensures session == null ==> r == ArgsResolved(t, member, ctx, None, nonInjectedArgs).result
  {
    ghost var start := if session == null then None else Some(session.State());
    if member != "" && member !in t.methods {
      return Thrown(MethodNotFound(member));
    }
    var injectedArgs := DescribeInjectedArguments(t.parameterInjections(member));
    var argLength := t.parameterCount(member);
    var args := new Value[argLength](_ => Undefined);
    var asyncResolvers: seq<Pending<nat>> := [];
    var nonInjectedIndex: nat := 0;
    ghost var st := ArgsFold(t, member, ctx, start, nonInjectedArgs, 0);
    for ix := 0 to argLength
      invariant st == ArgsFold(t, member, ctx, start, nonInjectedArgs, ix)
      invariant st.error.None?
      invariant st.args == args[..ix] && st.nonInjectedIndex == nonInjectedIndex && st.pending == asyncResolvers
      invariant st.session == if session == null then None else Some(session.State())
      invariant forall k :: ix <= k < argLength ==> args[k] == Undefined
    {
      ghost var next := ArgStep(t, member, ctx, nonInjectedArgs, st, ix);
      assert next == ArgsFold(t, member, ctx, start, nonInjectedArgs, ix + 1);
      var thrown;
      thrown, nonInjectedIndex, asyncResolvers :=
        ResolveSlot(t, member, ctx, session, nonInjectedArgs, InjectionAt(injectedArgs, ix), ix, args, nonInjectedIndex, asyncResolvers, st);
      if thrown.Some? {
        ArgsThrown(t, member, ctx, start, nonInjectedArgs, ix + 1);
        return Thrown(thrown.value);
      }
      st := next;
    }
    assert args[..] == args[..argLength];
    if |asyncResolvers| > 0 {
      r := Normal(Later(true, Settle(asyncResolvers, Arr(FillArgs(args[..], asyncResolvers)))));
    } else {
      r := Normal(Now(Arr(args[..])));
    }
  }

  // ---------------------------------------------------------------------
  // Injected properties

  /** The state of `resolveInjectedProperties` after some of the recorded
      properties: the properties placed so far, the pending ones, the
      session, and the error thrown, if any. */
  datatype PropsState = PropsState(
    properties: map<string, Value>,
    pending: seq<Pending<string>>,
    session: Option<SessionState>,
    error: Option<Value>)

  /** A property descriptor with neither a key nor a resolver. */
  predicate Undecorated(injection: Injection) {
    injection.bindingKey == "" && injection.resolve.None?
  }

  /** One turn of the loop over the recorded properties. */
  function PropStep(className: string, ctx: Context, s: PropsState, entry: (string, Injection)): PropsState {
    if s.error.Some? then s
    else
      var (p, injection) := entry;
      if Undecorated(injection) then s.(error := Some(MissingProperty(className, p)))
      else
        var r := ResolveIn(ctx, injection, s.session);
        match r.result
        case Thrown(e) => s.(session := r.session, error := Some(e))
        case Normal(Now(v)) => s.(properties := s.properties[p := v], session := r.session)
        case Normal(promise) => s.(pending := s.pending + [Pending(p, injection, promise)], session := r.session)
  }

  /** The state after the given entries, in order. */
  function PropsFold(className: string, ctx: Context, session: Option<SessionState>, entries: seq<(string, Injection)>): PropsState {
    if entries == [] then PropsState(map[], [], session, None)
    else PropStep(className, ctx, PropsFold(className, ctx, session, entries[..|entries| - 1]), entries[|entries| - 1])
  }

  /** The names of the pending properties whose setter places a value. */
  function DeliveredKeys(pending: seq<Pending<string>>): set<string>
    decreases |pending|
  {
    if pending == [] then {}
    else (if Delivers(pending[0].promise) then {pending[0].key} else {}) + DeliveredKeys(pending[1..])
  }

  /** The properties once every pending property's setter has run. */
  function FillProps(properties: map<string, Value>, pending: seq<Pending<string>>): (r: map<string, Value>)
    ensures r.Keys == properties.Keys + DeliveredKeys(pending)
    ensures forall k :: k in properties && k !in DeliveredKeys(pending) ==> r[k] == properties[k]
    decreases |pending|
  {
    if pending == [] then properties
    else
      var p := pending[0];
      var next := if Delivers(p.promise) then properties[p.key := p.promise.outcome.value] else properties;
      FillProps(next, pending[1..])
  }

  /** Each delivering pending property's value lands under its name once the
      setters have run, when the names are distinct. */
  lemma {:induction false} FillPropsPlaces(properties: map<string, Value>, pending: seq<Pending<string>>, j: nat)
    requires j < |pending|
    requires forall a, b :: 0 <= a < b < |pending| ==> pending[a].key != pending[b].key
    requires Delivers(pending[j].promise)
    ensures pending[j].key in FillProps(properties, pending)
    ensures FillProps(properties, pending)[pending[j].key] == pending[j].promise.outcome.value
    decreases |pending|
  {
    var p := pending[0];
    var next := if Delivers(p.promise) then properties[p.key := p.promise.outcome.value] else properties;
    if j == 0 {
      NotDelivered(pending[1..], p.key);
    } else {
      FillPropsPlaces(next, pending[1..], j - 1);
    }
  }

  lemma {:induction false} NotDelivered(pending: seq<Pending<string>>, key: string)
    requires forall a :: 0 <= a < |pending| ==> pending[a].key != key
    ensures key !in DeliveredKeys(pending)
    decreases |pending|
  {
    if pending != [] {
      NotDelivered(pending[1..], key);
    }
  }

  /** What `resolveInjectedProperties` returns after its loop. */
  function FinishProps(s: PropsState): Completion<VP> {
    if s.error.Some? then Thrown(s.error.value)
    else if s.pending == [] then Normal(Now(Obj(s.properties)))
    else Normal(Later(true, Settle(s.pending, Obj(FillProps(s.properties, s.pending)))))
  }

  /** `resolveInjectedProperties(constructor, ctx, session?)` */
  function PropsResolved(t: Target, ctx: Context, session: Option<SessionState>): Resolved {
    var s := PropsFold(t.name, ctx, session, DescribeInjectedProperties(t.propertyInjections));
    Resolved(FinishProps(s), s.session)
  }

  /** Once the loop has thrown, the remaining entries change nothing. */
  lemma {:induction false} PropsErrorSticks(className: string, ctx: Context, session: Option<SessionState>, entries: seq<(string, Injection)>, m: nat)
    requires m <= |entries|
    requires PropsFold(className, ctx, session, entries[..m]).error.Some?
    ensures PropsFold(className, ctx, session, entries) == PropsFold(className, ctx, session, entries[..m])
    decreases |entries|
  {
    if |entries| > m {
      var init := entries[..|entries| - 1];
      assert init[..m] == entries[..m];
      PropsErrorSticks(className, ctx, session, init, m);
    } else {
      assert entries[..m] == entries;
    }
  }

  /** A turn that does not throw either places a direct value under the
      entry's name, leaving the session as it was, or adds one pending
      property, a promise, whose injection stays pushed on the session. An
      undecorated entry throws. */
  lemma PropStepEffect(className: string, ctx: Context, s: PropsState, entry: (string, Injection))
    requires s.error.None?
    ensures var next := PropStep(className, ctx, s, entry);
            && (next.session.Some? <==> s.session.Some?)
            && (Undecorated(entry.1) ==> next.error == Some(MissingProperty(className, entry.0)))
            && (next.error.None? ==>
                  && next.properties.Keys <= s.properties.Keys + {entry.0}
                  && (next.pending == s.pending ==> next.session == s.session)
                  && (next.pending != s.pending ==>
                        && next.pending == s.pending + [Pending(entry.0, entry.1, next.pending[|s.pending|].promise)]
                        && next.pending[|s.pending|].promise.Later?
                        && (s.session.Some? ==>
                              next.session == Some(SessionState(s.session.value.bindings,
                                                                s.session.value.injections + [entry.1])))))
  {
  }

  /** The names of the recorded properties. */
  function PropertyNames(entries: seq<(string, Injection)>): (names: set<string>)
    ensures forall i :: 0 <= i < |entries| ==> entries[i].0 in names
    ensures forall p :: p in names ==> exists i :: 0 <= i < |entries| && entries[i].0 == p
  {
    set i | 0 <= i < |entries| :: entries[i].0
  }

  /** An undecorated entry makes the loop throw. */
  lemma {:induction false} PropsFoldUndecorated(className: string, ctx: Context, session: Option<SessionState>, entries: seq<(string, Injection)>, i: nat)
    requires i < |entries| && Undecorated(entries[i].1)
    ensures PropsFold(className, ctx, session, entries).error.Some?
    decreases |entries|
  {
    var init := entries[..|entries| - 1];
    var prev := PropsFold(className, ctx, session, init);
    if i < |init| {
      assert init[i] == entries[i];
      PropsFoldUndecorated(className, ctx, session, init, i);
    } else if prev.error.None? {
      PropStepEffect(className, ctx, prev, entries[i]);
    }
  }

  /** After some entries without a throw, the placed and the pending
      properties are among their names, and the pending ones hold promises. */
  lemma {:induction false} PropsFoldNames(className: string, ctx: Context, session: Option<SessionState>, entries: seq<(string, Injection)>)
    ensures var s := PropsFold(className, ctx, session, entries);
            s.error.None? ==>
              && s.properties.Keys <= PropertyNames(entries)
              && (forall j :: 0 <= j < |s.pending| ==>
                    s.pending[j].promise.Later? && s.pending[j].key in PropertyNames(entries))
    decreases |entries|
  {
    if entries != [] {
      var init := entries[..|entries| - 1];
      var prev := PropsFold(className, ctx, session, init);
      PropsFoldNames(className, ctx, session, init);
      if prev.error.None? {
        PropStepEffect(className, ctx, prev, entries[|entries| - 1]);
        assert PropertyNames(init) <= PropertyNames(entries) by {
          forall p | p in PropertyNames(init) ensures p in PropertyNames(entries) {
            var i :| 0 <= i < |init| && init[i].0 == p;
            assert entries[i] == init[i];
          }
        }
      }
    }
  }

  /** The loop keeps the session's bindings and, until it throws, leaves
      exactly the pending injections pushed on top of where it started. */
  lemma {:induction false} PropsFoldSession(className: string, ctx: Context, session: Option<SessionState>, entries: seq<(string, Injection)>)
    ensures var s := PropsFold(className, ctx, session, entries);
            && (s.session.Some? <==> session.Some?)
            && (s.error.None? && session.Some? ==>
                  s.session == Some(SessionState(session.value.bindings,
                                                 session.value.injections + PendingInjections(s.pending))))
    decreases |entries|
  {
    if entries == [] {
      if session.Some? {
        assert session.value.injections + PendingInjections<string>([]) == session.value.injections;
      }
    } else {
      var init := entries[..|entries| - 1];
      var last := entries[|entries| - 1];
      PropsFoldSession(className, ctx, session, init);
      var prev := PropsFold(className, ctx, session, init);
      var s := PropsFold(className, ctx, session, entries);
      if prev.error.None? {
        PropStepEffect(className, ctx, prev, last);
        if s.error.None? && session.Some? && s.pending != prev.pending {
          var init0 := session.value.injections;
          assert PendingInjections(s.pending) == PendingInjections(prev.pending) + [last.1];
          assert init0 + PendingInjections(s.pending) == (init0 + PendingInjections(prev.pending)) + [last.1];
        }
      }
    }
  }

  /** A property injected from the context's binding of a key, which holds
      a direct value, is placed at once with that value when the class's
      property names are distinct, as an object's keys are. */
  lemma {:induction false} DirectlyBoundProperty(className: string, ctx: Context, session: Option<SessionState>, entries: seq<(string, Injection)>, i: nat, v: Value)
    requires i < |entries|
    requires forall a, b :: 0 <= a < b < |entries| ==> entries[a].0 != entries[b].0
    requires PropsFold(className, ctx, session, entries).error.None?
    requires entries[i].1.bindingKey != "" && entries[i].1.resolve.None?
    requires ctx.valueOf(entries[i].1.bindingKey) == Normal(Now(v))
    ensures entries[i].0 in PropsFold(className, ctx, session, entries).properties
    ensures PropsFold(className, ctx, session, entries).properties[entries[i].0] == v
    decreases |entries|
  {
    var init := entries[..|entries| - 1];
    var prev := PropsFold(className, ctx, session, init);
    if i < |init| {
      assert prev.error.None?;
      DirectlyBoundProperty(className, ctx, session, init, i, v);
      assert entries[|entries| - 1].0 != init[i].0;
    }
  }

  /** The first undecorated property reached without an earlier throw is
      the one reported: "Cannot resolve injected property ... was not
      decorated". */
  lemma UndecoratedPropertyReported(className: string, ctx: Context, session: Option<SessionState>, entries: seq<(string, Injection)>, i: nat)
    requires i < |entries| && Undecorated(entries[i].1)
    requires PropsFold(className, ctx, session, entries[..i]).error.None?
    ensures PropsFold(className, ctx, session, entries).error == Some(MissingProperty(className, entries[i].0))
  {
    assert entries[..i + 1][..i] == entries[..i];
    PropStepEffect(className, ctx, PropsFold(className, ctx, session, entries[..i]), entries[i]);
    PropsErrorSticks(className, ctx, session, entries, i + 1);
  }

  /** A class's property resolution that hands out a carrier (a rejected
      native promise for some property, and no rejected promise of another
      library) fulfils with the first such carrier in the order the
      properties were recorded. */
  lemma PropertiesCarryFirstError(t: Target, ctx: Context, session: Option<SessionState>, j: nat)
    requires var s := PropsFold(t.name, ctx, session, DescribeInjectedProperties(t.propertyInjections));
             && s.error.None? && j < |s.pending| && CarriesError(s.pending[j].promise)
             && (forall k :: 0 <= k < |s.pending| ==> !Rejects(s.pending[k].promise))
             && (forall k :: 0 <= k < j ==> !CarriesError(s.pending[k].promise))
    ensures var s := PropsFold(t.name, ctx, session, DescribeInjectedProperties(t.propertyInjections));
            PropsResolved(t, ctx, session).result == Normal(Later(true, Fulfilled(s.pending[j].promise.outcome.value)))
  {
  }

  /** The body of the loop of `resolveInjectedProperties` for one recorded
      property: an undecorated one throws; otherwise it is resolved in the
      session and its value placed, or it is added to the pending ones when
      the value is a promise, or the throw is reported. `st` is the state
      before the turn; the turn does what `PropStep` says. */
  method ResolveProperty(
    className: string, ctx: Context, session: ResolutionSession?, entry: (string, Injection),
    properties: map<string, Value>, asyncResolvers: seq<Pending<string>>, ghost st: PropsState)
    returns (thrown: Option<Value>, nextProperties: map<string, Value>, nextResolvers: seq<Pending<string>>)
    requires st.error.None? && st.properties == properties && st.pending == asyncResolvers
    requires st.session == if session == null then None else Some(session.State())
    modifies session
    ensures var next := PropStep(className, ctx, st, entry);
            && next.error == thrown
            && next.session == (if session == null then None else Some(session.State()))
            && (thrown.None? ==> next.properties == nextProperties && next.pending == nextResolvers)
  {
    nextProperties, nextResolvers := properties, asyncResolvers;
    var (p, injection) := entry;
    if Undecorated(injection) {
      return Some(MissingProperty(className, p)), nextProperties, nextResolvers;
    }
    ghost var expected := ResolveIn(ctx, injection, st.session);
    var valueOrPromise, exitPending := Resolve(ctx, injection, session);
    assert valueOrPromise == expected.result;
    if valueOrPromise.Thrown? {
      return Some(valueOrPromise.error), nextProperties, nextResolvers;
    }
    if IsPromise(valueOrPromise.value) {
      nextResolvers := asyncResolvers + [Pending(p, injection, valueOrPromise.value)];
    } else {
      nextProperties := properties[p := valueOrPromise.value.value];
    }
    thrown := None;
  }

  /** `resolveInjectedProperties`: one turn per recorded property, then the
      result: the properties when every one was placed at once, a promise of
      them otherwise. */
  method ResolveInjectedProperties(t: Target, ctx: Context, session: ResolutionSession?) returns (r: Completion<VP>)
    modifies session
    ensures session != null ==>
              var spec := PropsResolved(t, ctx, Some(old(session.State())));
              r == spec.result && spec.session == Some(session.State())
    ensures session == null ==> r == PropsResolved(t, ctx, None).result
  {
    ghost var start := if session == null then None else Some(session.State());
    var injectedProperties := DescribeInjectedProperties(t.propertyInjections);
    var properties: map<string, Value> := map[];
    var asyncResolvers: seq<Pending<string>> := [];
    ghost var st := PropsFold(t.name, ctx, start, []);
    for i := 0 to |injectedProperties|
      invariant st == PropsFold(t.name, ctx, start, injectedProperties[..i])
      invariant st.error.None?
      invariant st.properties == properties && st.pending == asyncResolvers
      invariant st.session == if session == null then None else Some(session.State())
    {
      assert injectedProperties[..i + 1][..i] == injectedProperties[..i];
      ghost var next := PropStep(t.name, ctx, st, injectedProperties[i]);
      assert next == PropsFold(t.name, ctx, start, injectedProperties[..i + 1]);
      var thrown;
      thrown, properties, asyncResolvers :=
        ResolveProperty(t.name, ctx, session, injectedProperties[i], properties, asyncResolvers, st);
      if thrown.Some? {
        PropsErrorSticks(t.name, ctx, start, injectedProperties, i + 1);
        return Thrown(thrown.value);
      }
      st := next;
    }
    assert injectedProperties[..|injectedProperties|] == injectedProperties;
    if |asyncResolvers| > 0 {
      r := Normal(Later(true, Settle(asyncResolvers, Obj(FillProps(properties, asyncResolvers)))));
    } else {
      r := Normal(Now(Obj(properties)));
    }
  }

  // ---------------------------------------------------------------------
  // Instances and method invocation

  /** `new ctor(...args)`: spreading a value that is not an array throws. */
  function NewInstance(t: Target, args: Value): Completion<VP> {
    if !args.Arr? then Thrown(NewError("TypeError: args is not iterable"))
    else
      match t.construct(args.elems)
      case Normal(fields) => Normal(Now(Obj(fields)))
      case Thrown(e) => Thrown(e)
  }

  /** `Object.assign(inst, props)` */
  function Assign(inst: Value, props: Value): Value {
    if inst.Obj? && props.Obj? then Obj(inst.props + props.props) else inst
  }

  /** The composition at the end of `instantiateClass`: construct with the
      arguments, then assign the properties, each step waiting for its input
      when it is a promise and skipping when it is a carrier. */
  function Instantiate(t: Target, argsOrPromise: VP, propertiesOrPromise: VP): Completion<VP> {
    match Then(argsOrPromise, (args: Value) => NewInstance(t, args))
    case Thrown(e) => Thrown(e)
    case Normal(instOrPromise) =>
      Then(instOrPromise, (inst: Value) => Then(propertiesOrPromise, (props: Value) => Normal(Now(Assign(inst, props)))))
  }

  /** `instantiateClass(ctor, ctx, session?)`: arguments first, then
      properties, in the same session (a new one when none is given); the
      properties are resolved before the constructor runs. */
  function Instantiated(t: Target, ctx: Context, session: SessionState): Resolved {
    var a := ArgsResolved(t, "", ctx, Some(session), []);
    if a.result.Thrown? then a
    else
      var p := PropsResolved(t, ctx, a.session);
      if p.result.Thrown? then p
      else Resolved(Instantiate(t, a.result.value, p.result.value), p.session)
  }

  /** With arguments and properties at hand, the instance is the
      constructor's object with the properties assigned over it. */
  lemma InstantiateSync(t: Target, args: seq<Value>, props: map<string, Value>, fields: map<string, Value>)
    requires t.construct(args) == Normal(fields)
    ensures Instantiate(t, Now(Arr(args)), Now(Obj(props))) == Normal(Now(Obj(fields + props)))
  {
  }

  /** A constructor that throws with arguments at hand makes
      `instantiateClass` throw at once, whatever the properties are. */
  lemma InstantiateConstructorThrows(t: Target, args: seq<Value>, propertiesOrPromise: VP, e: Value)
    requires t.construct(args) == Thrown(e)
    ensures Instantiate(t, Now(Arr(args)), propertiesOrPromise) == Thrown(e)
  {
  }

  /** Arguments that arrive later are waited for: the instance promise
      fulfils with the constructed object and the properties assigned. */
  lemma InstantiateAsyncArgs(t: Target, native: bool, args: seq<Value>, props: map<string, Value>, fields: map<string, Value>)
    requires t.construct(args) == Normal(fields)
    ensures Instantiate(t, Later(native, Fulfilled(Arr(args))), Now(Obj(props))) ==
            Normal(Later(native, Fulfilled(Obj(fields + props))))
  {
  }

  /** A carrier or a rejection in the arguments skips the constructor and
      the properties and becomes the instance promise's outcome. */
  lemma InstantiateArgsFailure(t: Target, native: bool, o: Outcome, propertiesOrPromise: VP)
    requires o.Rejected? || IsCarrier(o.value)
    ensures Instantiate(t, Later(native, o), propertiesOrPromise) == Normal(Later(native, o))
  {
  }

  /** A carrier among the properties, after the arguments are at hand,
      becomes the instance promise's value. */
  lemma InstantiatePropsCarrier(t: Target, args: seq<Value>, fields: map<string, Value>, native: bool, carrier: Value)
    requires t.construct(args) == Normal(fields)
    requires IsCarrier(carrier)
    ensures Instantiate(t, Now(Arr(args)), Later(native, Fulfilled(carrier))) == Normal(Later(native, Fulfilled(carrier)))
  {
  }

  /** A class whose constructor takes no parameters and which has no
      injected properties is constructed at once, and the session is left as
      it was. */
  lemma InstantiatedPlainClass(t: Target, ctx: Context, session: SessionState, fields: map<string, Value>)
    requires t.parameterInjections("").None? && t.parameterCount("") == 0
    requires t.propertyInjections.None?
    requires t.construct([]) == Normal(fields)
    ensures Instantiated(t, ctx, session) == Resolved(Normal(Now(Obj(fields))), Some(session))
  {
    PlainParameters(t, "", ctx, Some(session), []);
    assert PropsResolved(t, ctx, Some(session)) == Resolved(Normal(Now(Obj(map[]))), Some(session));
    InstantiateSync(t, [], map[], fields);
    assert fields + map[] == fields;
  }

  /** Since `instantiateClass` passes no non-injected arguments on, a
      constructor with parameters and no descriptors fails on its first
      parameter, before any property is resolved. */
  lemma InstantiatedUndecoratedConstructor(t: Target, ctx: Context, session: SessionState)
    requires t.parameterInjections("").None? && t.parameterCount("") > 0
    ensures Instantiated(t, ctx, session) == Resolved(Thrown(MissingArgument(t.slotName("", 0), 0)), Some(session))
  {
    PlainParameters(t, "", ctx, Some(session), []);
  }

  /** `instantiateClass(ctor, ctx, session?, nonInjectedArgs?)`: the
      non-injected arguments are accepted but not passed on, so the
      constructor's undecorated parameters are reported missing. */
  method InstantiateClass(t: Target, ctx: Context, session: ResolutionSession?, nonInjectedArgs: seq<Value>) returns (r: Completion<VP>)
    modifies session
    ensures session != null ==>
              var spec := Instantiated(t, ctx, old(session.State()));
              r == spec.result && spec.session == Some(session.State())
    ensures session == null ==> r == Instantiated(t, ctx, EmptySession).result
  {
    var s: ResolutionSession;
    if session == null {
      s := new ResolutionSession();
    } else {
      s := session;
    }
    var argsOrPromise := ResolveInjectedArguments(t, "", ctx, s, []);
    if argsOrPromise.Thrown? {
      return argsOrPromise;
    }
    var propertiesOrPromise := ResolveInjectedProperties(t, ctx, s);
    if propertiesOrPromise.Thrown? {
      return propertiesOrPromise;
    }
    r := Instantiate(t, argsOrPromise.value, propertiesOrPromise.value);
  }

  /** `targetWithMethods[method](...args)` */
  function CallWith(t: Target, member: string, args: Value): Completion<VP> {
    if args.Arr? then t.call(member, args.elems) else Thrown(NewError("TypeError: args is not iterable"))
  }

  /** `invokeMethod(target, method, ctx, nonInjectedArgs?)`: the arguments
      are resolved without a session, the method is asserted to exist (again,
      after the arguments), and it is called with them once they are at
      hand. */
  function Invoked(t: Target, member: string, ctx: Context, nonInjected: seq<Value>): Completion<VP> {
    var a := ArgsResolved(t, member, ctx, None, nonInjected).result;
    if a.Thrown? then a
    else if member !in t.methods then Thrown(MethodNotFound(member))
    else Then(a.value, (args: Value) => CallWith(t, member, args))
  }

  /** Invoking a member that is not a function fails with "Method ... not
      found", before any argument is resolved when the name is not empty. */
  lemma InvokeMissingMethod(t: Target, member: string, ctx: Context, nonInjected: seq<Value>)
    requires member !in t.methods && member != ""
    ensures Invoked(t, member, ctx, nonInjected) == Thrown(MethodNotFound(member))
  {
  }

  /** The empty name passes the first check (it names the constructor) but
      not the second: `invokeMethod` with `""` fails after resolving the
      constructor's arguments, unless that resolution throws first. */
  lemma InvokeEmptyName(t: Target, ctx: Context, nonInjected: seq<Value>)
    requires "" !in t.methods
    requires ArgsResolved(t, "", ctx, None, nonInjected).result.Normal?
    ensures Invoked(t, "", ctx, nonInjected) == Thrown(MethodNotFound(""))
  {
  }

  /** A method without parameter descriptors is called at once with the
      non-injected arguments it declares. */
  lemma InvokePlainMethod(t: Target, member: string, ctx: Context, nonInjected: seq<Value>)
    requires member in t.methods
    requires t.parameterInjections(member).None?
    requires t.parameterCount(member) <= |nonInjected|
    ensures Invoked(t, member, ctx, nonInjected) == t.call(member, nonInjected[..t.parameterCount(member)])
  {
    PlainParameters(t, member, ctx, None, nonInjected);
  }

  /** `invokeMethod`: no session is shared, so the caller's state is not
      touched. */
  method InvokeMethod(t: Target, member: string, ctx: Context, nonInjectedArgs: seq<Value>) returns (r: Completion<VP>)
    ensures r == Invoked(t, member, ctx, nonInjectedArgs)
  {
    var argsOrPromise := ResolveInjectedArguments(t, member, ctx, null, nonInjectedArgs);
    if argsOrPromise.Thrown? {
      return argsOrPromise;
    }
    if member !in t.methods {
      return Thrown(MethodNotFound(member));
    }
    r := Then(argsOrPromise.value, (args: Value) => CallWith(t, member, args));
  }
}
