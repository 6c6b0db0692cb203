/** The injector of sqeezz/__init__.py: the shared provider registry behind
    `_Inject`, `Sqeezz.register`, and the argument filling done by `_inject`. */
module Sqeezz {
  import opened Common
  import opened FuncUtils
  import opened Registry

  /** The `__name__` of a positional provider, when it has one: functions and
      classes do, the `Injected` placeholder is itself a class, plain values
      do not. */
  function NameOf(v: Value): Option<string> {
    match v
    case Obj(_, name) => name
    case InjectedMarker => Some("Injected")
    case _ => None
  }

  /** The keyword dictionary `Sqeezz.register` hands on: each positional
      provider that has a `__name__` is added under that name, in order, so a
      later one replaces an earlier one and both replace a keyword provider of
      the same name; a positional without a name is dropped. */
  function NamedProviders(kw: map<string, Value>, positional: seq<Value>): (r: map<string, Value>)
    ensures forall k :: k in r <==>
      k in kw || exists i :: 0 <= i < |positional| && NameOf(positional[i]) == Some(k)
    decreases |positional|
  {
    if positional == [] then kw
    else
      var front := positional[..|positional| - 1];
      var last := positional[|positional| - 1];
      var r := NamedProviders(kw, front);
      assert forall i :: 0 <= i < |front| ==> front[i] == positional[i];
      if NameOf(last).Some? then r[NameOf(last).value := last] else r
  }

  /** The provider registered under a name is the last positional carrying
      that name. */
  lemma {:induction false} LastNamedProviderWins(kw: map<string, Value>, positional: seq<Value>, i: nat)
    requires i < |positional| && NameOf(positional[i]).Some?
    requires forall j :: i < j < |positional| ==> NameOf(positional[j]) != NameOf(positional[i])
    ensures NameOf(positional[i]).value in NamedProviders(kw, positional)
    ensures NamedProviders(kw, positional)[NameOf(positional[i]).value] == positional[i]
    decreases |positional|
  {
    var front := positional[..|positional| - 1];
    if i < |positional| - 1 {
      assert front[i] == positional[i];
      LastNamedProviderWins(kw, front, i);
    }
  }

  /** A keyword provider survives when no positional provider carries its name. */
  lemma {:induction false} KeywordProviderKept(kw: map<string, Value>, positional: seq<Value>, k: string)
    requires k in kw
    requires forall j :: 0 <= j < |positional| ==> NameOf(positional[j]) != Some(k)
    ensures NamedProviders(kw, positional)[k] == kw[k]
    decreases |positional|
  {
    if positional != [] {
      var front := positional[..|positional| - 1];
      assert forall j :: 0 <= j < |front| ==> front[j] == positional[j];
      KeywordProviderKept(kw, front, k);
    }
  }

  /** The keyword dictionary after `remove_invalid_kwargs` and the update
      with the positionally mapped arguments: positionals win. */
  function Prepared(sig: Signature, args: seq<Value>, kwargs: map<string, Value>): map<string, Value> {
    InvalidKwargsRemoved(sig, args, kwargs) + CreateArgsDict(sig.params, args)
  }

  /** A keyword the filling loop of `_inject` cannot get past: the
      placeholder with no provider of that name (KeyError, which the
      `except TypeError` does not catch), or an `Imported` value, whose
      `create()` yields a tuple that has no `values` method. */
  predicate Unresolvable(providers: map<string, Value>, kw: map<string, Value>, k: string) {
    k in kw && ((kw[k] == InjectedMarker && k !in providers) || kw[k].ImportedRef?)
  }

  /** Every keyword can be filled. */
  predicate Resolvable(providers: map<string, Value>, kw: map<string, Value>) {
    forall k | k in kw :: !Unresolvable(providers, kw, k)
  }

  /** The exception raised at an unresolvable keyword. */
  function FailureFor(kw: map<string, Value>, k: string): Error
    requires k in kw
  {
    if kw[k].ImportedRef? then AttributeError("values") else KeyError(k)
  }

  /** The keywords the wrapped function receives: each placeholder value is
      replaced by the provider of the same name, every other value is kept. */
  function Substituted(providers: map<string, Value>, kw: map<string, Value>): (r: map<string, Value>)
    ensures r.Keys == kw.Keys
  {
    map k | k in kw :: if kw[k] == InjectedMarker && k in providers then providers[k] else kw[k]
  }

  /** The class-level state of `_Inject.__Inject`, shared by every `_Inject()`. */
  class Inject {
    var defaults: map<string, Value>
    var buckets: map<string, map<string, Value>>
    var current: Option<string>

    function Snapshot(): State
      reads this
    {
      State(defaults, buckets, current)
    }

    /** The initial class attributes. */
    constructor()
      ensures Snapshot() == Empty()
    {
      defaults, buckets, current := map[], map[], None;
    }

    /** `current_profile()`. */
    function CurrentProfile(): Option<string>
      reads this
    {
      current
    }

    /** `p_providers()`. */
    function ProfileProviders(): map<string, map<string, Value>>
      reads this
    {
      buckets
    }

    /** `profiles()`: the names of the profiles that own a bucket. */
    function Profiles(): set<string>
      reads this
    {
      buckets.Keys
    }

    /** `providers()`: a copy of the defaults, which is what resolution sees
        with no profile active. */
    function Providers(): (r: map<string, Value>)
      reads this
      ensures r == Resolve(Snapshot().(current := None))
    {
      defaults
    }

    /** `profile(name)`: a string selects that profile, anything else clears it. */
    method Profile(name: Value)
      modifies this
      ensures current == ProfileArg(name)
      ensures defaults == old(defaults) && buckets == old(buckets)
    {
      if name.Str? {
        current := Some(name.s);
      } else {
        current := None;
      }
    }

    /** One pass of the loop in `register`: the name becomes a default when
        no profile is active or it is new, and otherwise goes to the active
        profile's bucket, created when missing. */
    method RegisterOne(name: string, provider: Value)
      modifies this
      ensures Snapshot() == RegisterOneV1(old(Snapshot()), name, provider)
    {
      if current.None? || name !in defaults {
        defaults := defaults[name := provider];
      } else {
        var cp := current.value;
        if cp !in buckets {
          buckets := buckets[cp := map[]];
        }
        buckets := buckets[cp := buckets[cp][name := provider]];
      }
    }

    /** `register(providers)`: the loop over the dictionary, in whatever order
        it yields its names, reaches the closed form `RegisterV1`. */
    method Register(providers: map<string, Value>)
      modifies this
      ensures Snapshot() == RegisterV1(old(Snapshot()), providers)
    {
      ghost var s0 := Snapshot();
      var todo := providers.Keys;
      ghost var done: map<string, Value> := map[];
      while todo != {}
        invariant todo <= providers.Keys
        invariant forall n :: n in done <==> n in providers && n !in todo
        invariant forall n :: n in done ==> done[n] == providers[n]
        invariant Snapshot() == RegisterV1(s0, done)
        decreases todo
      {
        var name :| name in todo;
        var provider := providers[name];
        RegisterOne(name, provider);
        RegisterV1Step(s0, done, name, provider);
        done := done[name := provider];
        todo := todo - {name};
      }
      assert done.Keys == providers.Keys;
      assert done == providers;
    }

    /** `Sqeezz.register(*providers, **kwproviders)`: names the positional
        providers, then registers the whole dictionary. */
    method SqeezzRegister(positional: seq<Value>, kw: map<string, Value>)
      modifies this
      ensures Snapshot() == RegisterV1(old(Snapshot()), NamedProviders(kw, positional))
    {
      var named := NameProviders(positional, kw);
      Register(named);
    }

    /** `_inject(func, *args, **kwargs)` up to the call of `func`: the
        keywords `func` receives, or the exception raised on the way.  The
        removal of invalid keywords is the one the code runs, so an
        undeclared keyword for a callable without `**kwargs` ends the call
        with RuntimeError before any placeholder is filled.  The resolved
        providers are a copy: the registry is not changed. */
    method InjectCall(sig: Signature, args: seq<Value>, kwargs: map<string, Value>)
      returns (r: Result<map<string, Value>>)
      ensures RemoveInvalidKwargsAsWritten(sig, args, kwargs).Err? ==> r == Err(ChangedSizeDuringIteration)
      ensures RemoveInvalidKwargsAsWritten(sig, args, kwargs).Ok? ==>
                (r.Ok? <==> Resolvable(Resolve(Snapshot()), Prepared(sig, args, kwargs)))
      ensures r.Ok? ==> r.value == Substituted(Resolve(Snapshot()), Prepared(sig, args, kwargs))
      ensures r.Err? && RemoveInvalidKwargsAsWritten(sig, args, kwargs).Ok? ==>
                exists k :: Unresolvable(Resolve(Snapshot()), Prepared(sig, args, kwargs), k) &&
                            r.error == FailureFor(Prepared(sig, args, kwargs), k)
    {
      var providers := Providers();
      if current.Some? && current.value in buckets {
        providers := providers + buckets[current.value];
      }
      assert providers == Resolve(Snapshot());
      var prepared := PrepareKeywords(sig, args, kwargs);
      match prepared
      case Err(e) =>
        r := Err(e);
      case Ok(kw) =>
        r := FillPlaceholders(providers, kw);
    }
  }

  /** `remove_invalid_kwargs(func, args, kwargs)` as the code runs it,
      followed by `kwargs.update(mapped_args)`: RuntimeError when the
      removal would delete an undeclared keyword, otherwise the intended
      removal with the positionals laid over it. */
  method PrepareKeywords(sig: Signature, args: seq<Value>, kwargs: map<string, Value>)
    returns (r: Result<map<string, Value>>)
    ensures r.Err? <==> RemoveInvalidKwargsAsWritten(sig, args, kwargs).Err?
    ensures r.Err? ==> r.error == ChangedSizeDuringIteration
    ensures r.Ok? ==> r.value == Prepared(sig, args, kwargs)
  {
    match RemoveInvalidKwargsAsWritten(sig, args, kwargs)
    case Err(e) =>
      r := Err(e);
    case Ok(removed) =>
      r := Ok(removed + CreateArgsDict(sig.params, args));
  }

  /** `Sqeezz.inject(f, c=3)` for `def f(a)`: the undeclared keyword makes
      the removal raise, although the intended removal would drop `c` and
      leave nothing to fill. */
  lemma UndeclaredKeywordRaisesInInject()
    ensures RemoveInvalidKwargsAsWritten(Signature(["a"], false), [], map["c" := Int(3)]).Err?
    ensures Prepared(Signature(["a"], false), [], map["c" := Int(3)]) == map[]
  {
    assert "c" !in ["a"];
    assert CreateArgsDict<Value>(["a"], []) == map[];
  }

  /** The loop of `inject_provider`: every keyword whose value is the
      `Injected` placeholder is rewritten to the provider of that name.
      Names are visited in the dictionary's own order, so when several
      keywords are unresolvable any of them may be the one reported. */
  method FillPlaceholders(providers: map<string, Value>, kwargs: map<string, Value>)
    returns (r: Result<map<string, Value>>)
    ensures r.Ok? <==> Resolvable(providers, kwargs)
    ensures r.Ok? ==> r.value == Substituted(providers, kwargs)
    ensures r.Err? ==> exists k :: Unresolvable(providers, kwargs, k) && r.error == FailureFor(kwargs, k)
  {
    var kw := kwargs;
    var todo := kw.Keys;
    while todo != {}
      invariant todo <= kwargs.Keys
      invariant kw.Keys == kwargs.Keys
      invariant forall k :: k in kw ==>
        kw[k] == if k in todo then kwargs[k] else Substituted(providers, kwargs)[k]
      invariant forall k :: k in kwargs && k !in todo ==> !Unresolvable(providers, kwargs, k)
      decreases todo
    {
      var name :| name in todo;
      var provider := kw[name];
      if provider == InjectedMarker {
        if name !in providers {
          assert Unresolvable(providers, kwargs, name);
          return Err(KeyError(name));
        }
        kw := kw[name := providers[name]];
      } else if provider.ImportedRef? {
        assert Unresolvable(providers, kwargs, name);
        return Err(AttributeError("values"));
      }
      todo := todo - {name};
    }
    assert kw == Substituted(providers, kwargs);
    return Ok(kw);
  }

  /** The naming loop of `Sqeezz.register`, which updates `kwproviders` in place. */
  method NameProviders(positional: seq<Value>, kw: map<string, Value>) returns (out: map<string, Value>)
    ensures out == NamedProviders(kw, positional)
  {
    out := kw;
    var i := 0;
    while i < |positional|
      invariant i <= |positional|
      invariant out == NamedProviders(kw, positional[..i])
    {
      var provider := positional[i];
      assert positional[..i + 1][..i] == positional[..i];
      if NameOf(provider).Some? {
        out := out[NameOf(provider).value := provider];
      }
      i := i + 1;
    }
    assert positional[..i] == positional;
  }

  /** The i-th positional argument reaches the i-th parameter even when a
      keyword of the same name was passed. */
  lemma PositionalWinsOverKeyword(sig: Signature, args: seq<Value>, kwargs: map<string, Value>, i: nat)
    requires Distinct(sig.params)
    requires i < |sig.params| && i < |args|
    ensures sig.params[i] in Prepared(sig, args, kwargs)
    ensures Prepared(sig, args, kwargs)[sig.params[i]] == args[i]
  {
    CreateArgsDictDistinct(sig.params, args, i);
  }

  /** Only placeholder values change: a keyword bound to anything else
      reaches `func` as given, and a placeholder with a provider becomes that
      provider. */
  lemma SubstitutionTouchesOnlyPlaceholders(providers: map<string, Value>, kw: map<string, Value>, k: string)
    requires k in kw && !Unresolvable(providers, kw, k)
    ensures k in Substituted(providers, kw)
    ensures kw[k] != InjectedMarker ==> Substituted(providers, kw)[k] == kw[k]
    ensures kw[k] == InjectedMarker ==> Substituted(providers, kw)[k] == providers[k]
    ensures Substituted(providers, kw)[k] != InjectedMarker || providers[k] == InjectedMarker
  {
  }

  /** Without positionals, declared keywords reach the filling loop as given. */
  lemma PreparedWithoutPositionals(sig: Signature, kw: map<string, Value>)
    requires forall k :: k in kw ==> k in sig.params
    ensures Prepared(sig, [], kw) == kw
  {
    assert CreateArgsDict<Value>(sig.params, []) == map[];
    assert InvalidKwargsRemoved(sig, [], kw).Keys == kw.Keys;
  }

  /** A placeholder whose name has no provider ends the call with KeyError. */
  lemma MissingProviderRaisesKeyError(providers: map<string, Value>, sig: Signature, name: string)
    requires name in sig.params && name !in providers
    ensures !Resolvable(providers, Prepared(sig, [], map[name := InjectedMarker]))
    ensures FailureFor(Prepared(sig, [], map[name := InjectedMarker]), name) == KeyError(name)
  {
    PreparedWithoutPositionals(sig, map[name := InjectedMarker]);
    assert Unresolvable(providers, map[name := InjectedMarker], name);
  }

  /** Injection resolves through the active profile: with `db = "sqlite"`
      registered as the default and `db = "mock"` under `"test"`, a call of
      `def f(db)` with `db=Injected` receives `"mock"` while `"test"` is
      active and `"sqlite"` once the profile is cleared. */
  lemma {:induction false} InjectionFollowsActiveProfile()
    ensures var r0 := RegisterV1(Empty(), map["db" := Str("sqlite")]);
            var r1 := RegisterV1(r0.(current := ProfileArg(Str("test"))), map["db" := Str("mock")]);
            var sig := Signature(["db"], false);
            && Substituted(Resolve(r1), Prepared(sig, [], map["db" := InjectedMarker])) == map["db" := Str("mock")]
            && Substituted(Resolve(r1.(current := None)), Prepared(sig, [], map["db" := InjectedMarker]))
               == map["db" := Str("sqlite")]
  {
    ProfilePrecedenceScenarioV1();
    var r0 := RegisterV1(Empty(), map["db" := Str("sqlite")]);
    var r1 := RegisterV1(r0.(current := ProfileArg(Str("test"))), map["db" := Str("mock")]);
    var sig := Signature(["db"], false);
    var kw := map["db" := InjectedMarker];
    PreparedWithoutPositionals(sig, kw);
    SubstitutedSingle(Resolve(r1), "db");
    SubstitutedSingle(Resolve(r1.(current := None)), "db");
  }

  lemma SubstitutedSingle(providers: map<string, Value>, name: string)
    requires name in providers
    ensures Substituted(providers, map[name := InjectedMarker]) == map[name := providers[name]]
  {
    var m := Substituted(providers, map[name := InjectedMarker]);
    assert m.Keys == {name};
  }
}
