/** resolver.ts, part one: the resolution session, which keeps the stack of
    bindings being resolved (to detect circular dependencies) and the stack of
    injections being resolved (for the injection path), and `resolve`, which
    resolves one injection within a session. */
module ResolverSession {
  import opened JsValues
  import opened JsStrings
  import opened PromiseHelper
  import opened Collaborators
  import opened Inject

  /** The two stacks of a session at one moment. */
  datatype SessionState = SessionState(bindings: seq<Binding>, injections: seq<Injection>)

  /** The state of a session just created. */
  const EmptySession := SessionState([], [])

  function BindingKeys(bindings: seq<Binding>): (keys: seq<string>)
    ensures |keys| == |bindings|
    ensures forall i :: 0 <= i < |bindings| ==> keys[i] == bindings[i].key
  {
    seq(|bindings|, i requires 0 <= i < |bindings| => bindings[i].key)
  }

  function TargetNames(injections: seq<Injection>): (names: seq<string>)
    ensures |names| == |injections|
    ensures forall i :: 0 <= i < |injections| ==> names[i] == injections[i].targetName
  {
    seq(|injections|, i requires 0 <= i < |injections| => injections[i].targetName)
  }

  /** What a resolver function receives of a session. */
  function ViewOf(s: SessionState): SessionView {
    SessionView(s.bindings, TargetNames(s.injections))
  }

  /** The error `enter` throws when a binding is already being resolved. */
  function CircularDependency(key: string, path: string): Value {
    NewError("Circular dependency detected for '" + key + "' on path '" + path + "'")
  }

  /** `ResolutionSession` */
  class ResolutionSession {
    var bindings: seq<Binding>
    var injections: seq<Injection>

    constructor ()
      ensures bindings == [] && injections == []
    {
      bindings := [];
      injections := [];
    }

    function State(): SessionState
      reads this
    {
      SessionState(bindings, injections)
    }

    /** `enterInjection(injection)`: push the injection. */
    method EnterInjection(injection: Injection)
      modifies this
      ensures injections == old(injections) + [injection]
      ensures bindings == old(bindings)
      ensures InjectionPath() == if old(injections) == [] then injection.targetName
                                 else old(InjectionPath()) + "->" + injection.targetName
    {
      assert TargetNames(injections + [injection]) == TargetNames(injections) + [injection.targetName];
      JoinSnoc(TargetNames(injections), "->", injection.targetName);
      injections := injections + [injection];
    }

    /** `exitInjection()`: pop the top injection and return it (`undefined`
        when there is none). */
    method ExitInjection() returns (popped: Option<Injection>)
      modifies this
      ensures old(injections) == [] ==> popped.None? && injections == []
      ensures old(injections) != [] ==>
                popped == Some(old(injections)[|old(injections)| - 1]) &&
                injections == old(injections)[..|old(injections)| - 1]
      ensures bindings == old(bindings)
    {
      if injections == [] {
        popped := None;
      } else {
        popped := Some(injections[|injections| - 1]);
        injections := injections[..|injections| - 1];
      }
    }

    /** The `injection` getter: the top of the injection stack. */
    function CurrentInjection(): (i: Option<Injection>)
      reads this
      ensures injections == [] <==> i.None?
      ensures i.Some? ==> i.value == injections[|injections| - 1]
    {
      if injections == [] then None else Some(injections[|injections| - 1])
    }

    /** The `binding` getter: the top of the binding stack. */
    function CurrentBinding(): (b: Option<Binding>)
      reads this
      ensures bindings == [] <==> b.None?
      ensures b.Some? ==> b.value == bindings[|bindings| - 1]
    {
      if bindings == [] then None else Some(bindings[|bindings| - 1])
    }

    /** `getBindingPath()`: the keys of the binding stack joined by `->`. */
    function BindingPath(): (path: string)
      reads this
      ensures bindings == [] ==> path == ""
      ensures |bindings| == 1 ==> path == bindings[0].key
      ensures |bindings| > 1 ==>
                path == Join(BindingKeys(bindings[..|bindings| - 1]), "->") + "->" + bindings[|bindings| - 1].key
    {
      assert |bindings| > 1 ==> BindingKeys(bindings)[..|bindings| - 1] == BindingKeys(bindings[..|bindings| - 1]);
      Join(BindingKeys(bindings), "->")
    }

    /** `getInjectionPath()`: the target names of the injection stack joined
        by `->`. */
    function InjectionPath(): (path: string)
      reads this
      ensures injections == [] ==> path == ""
      ensures |injections| == 1 ==> path == injections[0].targetName
      ensures |injections| > 1 ==>
                path == Join(TargetNames(injections[..|injections| - 1]), "->") + "->" + injections[|injections| - 1].targetName
    {
      assert |injections| > 1 ==> TargetNames(injections)[..|injections| - 1] == TargetNames(injections[..|injections| - 1]);
      Join(TargetNames(injections), "->")
    }

    /** `enter(binding)`: a binding already on the stack (the same object) is
        a circular dependency and is refused with the stack unchanged;
        otherwise it is pushed and the binding path grows by its key. */
    method Enter(binding: Binding) returns (r: Completion<()>)
      modifies this
      ensures binding in old(bindings) ==>
                r == Thrown(CircularDependency(binding.key, old(BindingPath()))) &&
                bindings == old(bindings)
      ensures binding !in old(bindings) ==>
                r == Normal(()) && bindings == old(bindings) + [binding] &&
                BindingPath() == if old(bindings) == [] then binding.key
                                 else old(BindingPath()) + "->" + binding.key
      ensures injections == old(injections)
    {
      if binding in bindings {
        return Thrown(CircularDependency(binding.key, BindingPath()));
      }
      assert BindingKeys(bindings + [binding]) == BindingKeys(bindings) + [binding.key];
      JoinSnoc(BindingKeys(bindings), "->", binding.key);
      bindings := bindings + [binding];
      r := Normal(());
    }

    /** `exit()`: pop the top binding and return it (`undefined` when there is
        none). */
    method Exit() returns (popped: Option<Binding>)
      modifies this
      ensures old(bindings) == [] ==> popped.None? && bindings == []
      ensures old(bindings) != [] ==>
                popped == Some(old(bindings)[|old(bindings)| - 1]) &&
                bindings == old(bindings)[..|old(bindings)| - 1]
      ensures injections == old(injections)
    {
      if bindings == [] {
        popped := None;
      } else {
        popped := Some(bindings[|bindings| - 1]);
        bindings := bindings[..|bindings| - 1];
      }
    }
  }

  /** Entering a binding and leaving it restores the session, so a binding
      may be resolved again after its resolution is over: only a binding that
      is still being resolved is a circular dependency. */
  method EnterExitEnter(session: ResolutionSession, b: Binding) returns (first: Completion<()>, second: Completion<()>)
    requires b !in session.bindings
    modifies session
    ensures first == Normal(()) && second == Normal(())
    ensures session.bindings == old(session.bindings) + [b]
  {
    first := session.Enter(b);
    var popped := session.Exit();
    second := session.Enter(b);
  }

  /** The static `enterBinding(binding, session?)`: enter the binding in the
      given session, or in a new one. */
  method EnterBinding(binding: Binding, session: ResolutionSession?) returns (r: Completion<ResolutionSession>)
    modifies session
    ensures session == null ==> r.Normal? && fresh(r.value) && r.value.bindings == [binding] && r.value.injections == []
    ensures session != null ==> (r.Thrown? <==> binding in old(session.bindings))
    ensures session != null && r.Thrown? ==>
              r.error == CircularDependency(binding.key, old(session.BindingPath())) &&
              session.bindings == old(session.bindings) && session.injections == old(session.injections)
    ensures session != null && r.Normal? ==>
              r.value == session && session.bindings == old(session.bindings) + [binding] &&
              session.injections == old(session.injections)
  {
    var s := session;
    if s == null {
      s := new ResolutionSession();
    }
    var entered := s.Enter(binding);
    if entered.Thrown? {
      return Thrown(entered.error);
    }
    r := Normal(s);
  }

  /** The static `enterInjection(injection, session?)`: push the injection
      onto the given session, or onto a new one. */
  method EnterInjection(injection: Injection, session: ResolutionSession?) returns (s: ResolutionSession)
    modifies session
    ensures session == null ==> fresh(s) && s.bindings == [] && s.injections == [injection]
    ensures session != null ==>
              s == session && s.bindings == old(session.bindings) &&
              s.injections == old(session.injections) + [injection]
  {
    if session == null {
      s := new ResolutionSession();
    } else {
      s := session;
    }
    s.EnterInjection(injection);
  }

  /** Where `resolve` takes the value of an injection from: its resolver
      function when it has one, the context's binding of its key otherwise. */
  function Lookup(ctx: Context, injection: Injection, view: SessionView): Completion<VP> {
    match injection.resolve
    case Some(rf) => RunResolver(rf, ctx, injection, Some(view))
    case None => ctx.valueOf(injection.bindingKey)
  }

  /** The outcome of `resolve`: its result and the session's state after its
      synchronous part. */
  datatype Resolution = Resolution(result: Completion<VP>, after: SessionState)

  /** The identity continuation (the one `resolve` attaches, apart from its
      deferred `exitInjection`). */
  function Identity(v: Value): Completion<VP> {
    Normal(Now(v))
  }

  /** `resolve(ctx, injection, session)` within a session in state `s`. The
      lookup sees the injection pushed. A throw propagates and leaves it
      pushed; a direct value pops it; a promise leaves it pushed for the
      continuation to pop, and a rejection of a native promise becomes a
      fulfilment with a carrier of its cause. */
  function ResolveSpec(ctx: Context, injection: Injection, s: SessionState): (r: Resolution)
    ensures var resolved := Lookup(ctx, injection, ViewOf(SessionState(s.bindings, s.injections + [injection])));
            && (r.result.Thrown? <==> resolved.Thrown?)
            && (r.result.Thrown? ==> r.result == resolved)
            && (resolved.Normal? && resolved.value.Now? ==> r.result == resolved)
            && (resolved.Normal? && resolved.value.Later? ==> r.result == Normal(Catch(resolved.value)))
    ensures r.after.bindings == s.bindings
    ensures r.result.Normal? && r.result.value.Now? ==> r.after == s
    ensures !(r.result.Normal? && r.result.value.Now?) ==> r.after.injections == s.injections + [injection]
    ensures r.result.Normal? && r.result.value.Later? && r.result.value.native ==> r.result.value.outcome.Fulfilled?
  {
    var pushed := SessionState(s.bindings, s.injections + [injection]);
    var resolved := Lookup(ctx, injection, ViewOf(pushed));
    match resolved
    case Thrown(_) => Resolution(resolved, pushed)
    case Normal(Now(_)) => Resolution(resolved, s)
    case Normal(p) =>
      ThenIdentity(Catch(p));
      Resolution(Then(Catch(p), Identity), pushed)
  }

  /** Whether the continuation `resolve` attaches to a promise runs, and so
      pops the top injection of the session: only when the promise fulfils
      with something other than a carrier. */
  predicate ExitPending(result: VP) {
    result.Later? && result.outcome.Fulfilled? && !IsCarrier(result.outcome.value)
  }

  /** `resolve(ctx, injection, session?)`: without a session, a new one is
      used for this injection alone. `exitPending` tells whether the
      promise's continuation will pop the injection when it runs. */
  method Resolve(ctx: Context, injection: Injection, session: ResolutionSession?) returns (r: Completion<VP>, exitPending: bool)
    modifies session
    ensures session != null ==>
              var spec := ResolveSpec(ctx, injection, old(session.State()));
              r == spec.result && session.State() == spec.after
    ensures session == null ==> r == ResolveSpec(ctx, injection, EmptySession).result
    ensures exitPending <==> r.Normal? && ExitPending(r.value)
  {
    assert EmptySession.injections + [injection] == [injection];
    var s := EnterInjection(injection, session);
    var resolved := Lookup(ctx, injection, ViewOf(s.State()));
    if resolved.Normal? && IsPromise(resolved.value) {
      ThenIdentity(Catch(resolved.value));
      r := Then(Catch(resolved.value), Identity);
      exitPending := ExitPending(r.value);
    } else {
      r := resolved;
      if resolved.Normal? {
        var popped := s.ExitInjection();
      }
      exitPending := false;
    }
  }

  /** A session is back where it started after `resolve` returns a direct
      value, and one injection deeper after it returns a promise or throws;
      the bindings never change. */
  lemma ResolveStackEffect(ctx: Context, injection: Injection, s: SessionState)
    ensures var r := ResolveSpec(ctx, injection, s);
            |r.after.injections| == |s.injections| + (if r.result.Normal? && r.result.value.Now? then 0 else 1)
  {
  }

  /** A rejected native promise from the lookup never reaches the caller of
      `resolve` as a rejection: it arrives as a carrier of the cause. */
  lemma ResolveCatchesNativeRejection(ctx: Context, injection: Injection, s: SessionState, cause: Value)
    requires Lookup(ctx, injection, ViewOf(SessionState(s.bindings, s.injections + [injection]))) ==
             Normal(Later(true, Rejected(cause)))
    ensures ResolveSpec(ctx, injection, s).result == Normal(Later(true, Fulfilled(NewRejectionError(cause))))
    ensures !ExitPending(ResolveSpec(ctx, injection, s).result.value)
  {
  }
}
