/** The injector of src/sqeezz/__init__.py: the same registry with the
    second registration rule, global bindings, and a single "injection
    point" keyword that carries a bundle of providers and bindings. */
module SrcInject {
  import opened Common
  import opened Registry

  /** The default name of the injection-point keyword. */
  const DefaultInjectionPoint: string := "injected"

  /** `provider(name)` on the bundle: the resolved provider, or None for an
      unknown name (the `__Providers` view swallows the KeyError). */
  function BundleProvider(bundle: Value, name: string): (r: Value)
    requires bundle.InjectedBundle?
    ensures name in bundle.providers ==> r == bundle.providers[name]
    ensures name !in bundle.providers ==> r == NoneValue
  {
    Lookup(bundle.providers, name)
  }

  /** Attribute lookup on the `__Bindings` view: the binding, or None. */
  function BundleBinding(bundle: Value, name: string): (r: Value)
    requires bundle.InjectedBundle?
    ensures name in bundle.bindings ==> r == bundle.bindings[name]
    ensures name !in bundle.bindings ==> r == NoneValue
  {
    Lookup(bundle.bindings, name)
  }

  /** The keywords `__inject` hands to the wrapped function: unchanged when
      the caller already supplies the injection-point keyword, otherwise with
      exactly that one keyword added, bound to a bundle over the resolved
      providers and the bindings. */
  function Wrapped(ip: string, reg: State, bindings: map<string, Value>, kwargs: map<string, Value>)
    : (r: map<string, Value>)
    ensures ip in r
    ensures ip in kwargs ==> r == kwargs
    ensures forall k :: k != ip ==> (k in r <==> k in kwargs)
    ensures forall k :: k != ip && k in kwargs ==> r[k] == kwargs[k]
  {
    if ip in kwargs then kwargs
    else kwargs[ip := InjectedBundle(Resolve(reg), bindings)]
  }

  /** Without the keyword, the bundle added resolves each name as the
      registry does under the active profile, and yields None for names that
      are neither providers nor bindings. */
  lemma BundleExposesResolution(ip: string, reg: State, bindings: map<string, Value>,
                                kwargs: map<string, Value>, name: string)
    requires ip !in kwargs
    ensures Wrapped(ip, reg, bindings, kwargs)[ip].InjectedBundle?
    ensures BundleProvider(Wrapped(ip, reg, bindings, kwargs)[ip], name) ==
            if name in reg.defaults || Overridden(reg, name) then Resolve(reg)[name] else NoneValue
    ensures Overridden(reg, name) ==>
            BundleProvider(Wrapped(ip, reg, bindings, kwargs)[ip], name) == reg.buckets[reg.current.value][name]
    ensures name in reg.defaults && !Overridden(reg, name) ==>
            BundleProvider(Wrapped(ip, reg, bindings, kwargs)[ip], name) == reg.defaults[name]
    ensures BundleBinding(Wrapped(ip, reg, bindings, kwargs)[ip], name) ==
            if name in bindings then bindings[name] else NoneValue
  {
  }

  /** `__inject` as written: building `__Bindings(bindings)` assigns its
      private slot through its own `__setattr__`, which reads that slot; the
      slot is not yet set, so `__getattr__` runs, which reads the slot
      again.  `limit` is the interpreter's recursion limit. */
  function WrapAsWritten(ip: string, reg: State, bindings: map<string, Value>,
                         kwargs: map<string, Value>, limit: nat)
    : (r: Result<map<string, Value>>)
    ensures ip in kwargs ==> r == Ok(kwargs)
    ensures r.Ok? ==> r.value == Wrapped(ip, reg, bindings, kwargs)
  {
    if ip in kwargs then Ok(kwargs)
    else
      match ReadThroughGetAttr(false, limit)
      case Pass => Ok(Wrapped(ip, reg, bindings, kwargs))
      case Fail(e) => Err(e)
  }

  /** Every call that needs the bundle raises RuntimeError as written,
      whatever the recursion limit, whereas the intended wrapper adds the
      bundle. */
  lemma WrapRaisesAsWritten(ip: string, reg: State, bindings: map<string, Value>,
                            kwargs: map<string, Value>, limit: nat)
    requires ip !in kwargs
    ensures WrapAsWritten(ip, reg, bindings, kwargs, limit) == Err(RecursionDepthExceeded)
    ensures Wrapped(ip, reg, bindings, kwargs)[ip].InjectedBundle?
  {
    UnsetAttributeExhaustsStack(limit);
  }

  /** The class-level state of `Inject.__Inject`. */
  class Injector {
    var defaults: map<string, Value>
    var buckets: map<string, map<string, Value>>
    var current: Option<string>
    var bindings: map<string, Value>
    var injectionPoint: string

    function Snapshot(): State
      reads this
    {
      State(defaults, buckets, current)
    }

    /** The initial class attributes. */
    constructor()
      ensures Snapshot() == Empty()
      ensures bindings == map[] && injectionPoint == DefaultInjectionPoint
    {
      defaults, buckets, current := map[], map[], None;
      bindings, injectionPoint := map[], DefaultInjectionPoint;
    }

    /** `profiles()`: the names of the profiles that own a bucket. */
    function Profiles(): set<string>
      reads this
    {
      buckets.Keys
    }

    /** `binding(name, value)`: overwrites the global binding. */
    method Binding(name: string, value: Value)
      modifies this
      ensures bindings == old(bindings)[name := value]
      ensures Snapshot() == old(Snapshot()) && injectionPoint == old(injectionPoint)
    {
      bindings := bindings[name := value];
    }

    /** `injection_point(ip)`: a string renames the keyword and returns
        nothing; any other argument leaves it and returns the current name. */
    method InjectionPoint(ip: Value) returns (r: Option<string>)
      modifies this
      ensures ip.Str? ==> injectionPoint == ip.s && r == None
      ensures !ip.Str? ==> injectionPoint == old(injectionPoint) && r == Some(injectionPoint)
      ensures Snapshot() == old(Snapshot()) && bindings == old(bindings)
    {
      if ip.Str? {
        injectionPoint := ip.s;
        r := None;
      } else {
        r := Some(injectionPoint);
      }
    }

    /** `profile(name)`: a string selects that profile, anything else clears it. */
    method Profile(name: Value)
      modifies this
      ensures current == ProfileArg(name)
      ensures defaults == old(defaults) && buckets == old(buckets)
      ensures bindings == old(bindings) && injectionPoint == old(injectionPoint)
    {
      if name.Str? {
        current := Some(name.s);
      } else {
        current := None;
      }
    }

    /** `register(provider_name, provider)`. */
    method Register(name: string, provider: Value)
      modifies this
      ensures Snapshot() == RegisterV2(old(Snapshot()), name, provider)
      ensures bindings == old(bindings) && injectionPoint == old(injectionPoint)
    {
      if current.None? || name !in defaults {
        defaults := defaults[name := provider];
      }
      if current.Some? {
        var cp := current.value;
        if cp !in buckets {
          buckets := buckets[cp := map[]];
        }
        buckets := buckets[cp := buckets[cp][name := provider]];
      }
    }

    /** The keywords `__inject` passes on (positionals pass unchanged): the
        provider copy is overlaid by the active profile's bucket, and the
        stored registry is not changed. */
    method Wrap(kwargs: map<string, Value>) returns (r: map<string, Value>)
      ensures r == Wrapped(injectionPoint, Snapshot(), bindings, kwargs)
    {
      r := kwargs;
      if injectionPoint !in kwargs {
        var providers := defaults;
        if current.Some? && current.value in buckets {
          providers := providers + buckets[current.value];
        }
        r := r[injectionPoint := InjectedBundle(providers, bindings)];
      }
    }
  }
}
