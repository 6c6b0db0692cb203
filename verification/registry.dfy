/** The provider registry shared by both injector variants: default
    providers, per-profile buckets and the active profile, with the two
    historical registration rules and the overlay used at resolution. */
module Registry {
  import opened Common

  datatype State = State(
    defaults: map<string, Value>,                 // `__default_providers`
    buckets: map<string, map<string, Value>>,     // `__profile_providers`
    current: Option<string>)                      // `__current_profile`

  /** The class-level initial state of both injector classes. */
  function Empty(): State {
    State(map[], map[], None)
  }

  /** `profile(name)`: a string selects that profile; any other value,
      including None, clears it. */
  function ProfileArg(name: Value): Option<string> {
    if name.Str? then Some(name.s) else None
  }

  /** The bucket of profile `p`, empty when none was created. */
  function Bucket(reg: State, p: string): map<string, Value> {
    if p in reg.buckets then reg.buckets[p] else map[]
  }

  /** True when the active profile has a bucket holding `k`. */
  predicate Overridden(reg: State, k: string) {
    reg.current.Some? && reg.current.value in reg.buckets && k in reg.buckets[reg.current.value]
  }

  /** Resolution: a copy of the defaults overlaid by the active profile's
      bucket when it has one.  Profile entries win; without an active bucket
      only the defaults are seen. */
  function Resolve(reg: State): (r: map<string, Value>)
    ensures forall k :: k in r <==> k in reg.defaults || Overridden(reg, k)
    ensures forall k :: Overridden(reg, k) ==> r[k] == reg.buckets[reg.current.value][k]
    ensures forall k :: k in reg.defaults && !Overridden(reg, k) ==> r[k] == reg.defaults[k]
  {
    if reg.current.Some? && reg.current.value in reg.buckets then
      reg.defaults + reg.buckets[reg.current.value]
    else
      reg.defaults
  }

  /** Registration rule of sqeezz/__init__.py for a dictionary of providers.
      With no active profile, or for a name that is not yet a default, the
      provider becomes the default; otherwise it goes to the active profile's
      bucket, which is created when missing, and the default is untouched.
      Every name is decided against the defaults as they were before the
      call, since each name of the dictionary is visited once. */
  function RegisterV1(reg: State, providers: map<string, Value>): (r: State)
    ensures r.current == reg.current
    ensures forall n :: n in r.defaults <==> n in reg.defaults || n in providers
    ensures forall n :: n in providers && (reg.current.None? || n !in reg.defaults) ==>
              r.defaults[n] == providers[n]
    ensures forall n :: n in reg.defaults && (n !in providers || reg.current.Some?) ==>
              r.defaults[n] == reg.defaults[n]
  {
    State(reg.defaults + NewDefaults(reg, providers), BucketsV1(reg, providers), reg.current)
  }

  /** The buckets after `RegisterV1`: the overriding providers, if any, are
      merged into the active profile's bucket. */
  function BucketsV1(reg: State, providers: map<string, Value>): map<string, map<string, Value>> {
    var overrides := Overrides(reg, providers);
    if overrides == map[] then reg.buckets
    else reg.buckets[reg.current.value := Bucket(reg, reg.current.value) + overrides]
  }

  /** The providers `RegisterV1` writes as defaults. */
  function NewDefaults(reg: State, providers: map<string, Value>): map<string, Value> {
    map n | n in providers && (reg.current.None? || n !in reg.defaults) :: providers[n]
  }

  /** The providers `RegisterV1` writes into the active profile's bucket. */
  function Overrides(reg: State, providers: map<string, Value>): map<string, Value> {
    if reg.current.None? then map[] else map n | n in providers && n in reg.defaults :: providers[n]
  }

  /** One iteration of the registration loop of sqeezz/__init__.py.  The
      registered name then resolves to its provider under the current
      profile, provided every bucket name is a default; no other name's
      resolution changes. */
  function RegisterOneV1(reg: State, name: string, provider: Value): (r: State)
    ensures r.current == reg.current
    ensures BucketsWithinDefaults(reg) ==> name in Resolve(r) && Resolve(r)[name] == provider
    ensures forall n :: n != name ==> (n in Resolve(r) <==> n in Resolve(reg))
    ensures forall n :: n != name && n in Resolve(reg) ==> Resolve(r)[n] == Resolve(reg)[n]
  {
    if reg.current.None? || name !in reg.defaults then
      assert BucketsWithinDefaults(reg) && reg.current.Some? ==> !Overridden(reg, name);
      reg.(defaults := reg.defaults[name := provider])
    else
      reg.(buckets := reg.buckets[reg.current.value := Bucket(reg, reg.current.value)[name := provider]])
  }

  lemma NewDefaultsStep(reg: State, providers: map<string, Value>, name: string, provider: Value)
    requires name !in providers
    ensures NewDefaults(reg, providers[name := provider]) ==
            if reg.current.None? || name !in reg.defaults then NewDefaults(reg, providers)[name := provider]
            else NewDefaults(reg, providers)
  {
    var lhs := NewDefaults(reg, providers[name := provider]);
    var rhs := if reg.current.None? || name !in reg.defaults then NewDefaults(reg, providers)[name := provider]
               else NewDefaults(reg, providers);
    assert lhs.Keys == rhs.Keys;
  }

  lemma OverridesStep(reg: State, providers: map<string, Value>, name: string, provider: Value)
    requires name !in providers
    ensures Overrides(reg, providers[name := provider]) ==
            if reg.current.Some? && name in reg.defaults then Overrides(reg, providers)[name := provider]
            else Overrides(reg, providers)
  {
    var lhs := Overrides(reg, providers[name := provider]);
    var rhs := if reg.current.Some? && name in reg.defaults then Overrides(reg, providers)[name := provider]
               else Overrides(reg, providers);
    assert lhs.Keys == rhs.Keys;
  }

  lemma RegisterV1StepDefaults(reg: State, providers: map<string, Value>, name: string, provider: Value)
    requires name !in providers
    ensures RegisterV1(reg, providers[name := provider]).defaults ==
            RegisterOneV1(RegisterV1(reg, providers), name, provider).defaults
  {
    var mid := RegisterV1(reg, providers);
    var nd := NewDefaults(reg, providers);
    NewDefaultsStep(reg, providers, name, provider);
    assert name in mid.defaults <==> name in reg.defaults;
    if reg.current.None? || name !in reg.defaults {
      assert reg.defaults + nd[name := provider] == (reg.defaults + nd)[name := provider];
    }
  }

  lemma BucketsV1Step(reg: State, providers: map<string, Value>, name: string, provider: Value)
    requires name !in providers
    ensures reg.current.Some? && name in reg.defaults ==>
              var b := BucketsV1(reg, providers);
              var p := reg.current.value;
              BucketsV1(reg, providers[name := provider]) ==
                b[p := (if p in b then b[p] else map[])[name := provider]]
    ensures !(reg.current.Some? && name in reg.defaults) ==>
              BucketsV1(reg, providers[name := provider]) == BucketsV1(reg, providers)
  {
    OverridesStep(reg, providers, name, provider);
    if reg.current.Some? && name in reg.defaults {
      var p := reg.current.value;
      var ov := Overrides(reg, providers);
      var b := BucketsV1(reg, providers);
      assert name in Overrides(reg, providers[name := provider]);
      assert (if p in b then b[p] else map[]) == Bucket(reg, p) + ov by {
        if ov == map[] {
          assert Bucket(reg, p) + ov == Bucket(reg, p);
        }
      }
      assert Bucket(reg, p) + ov[name := provider] == (Bucket(reg, p) + ov)[name := provider];
    }
  }

  lemma RegisterV1StepBuckets(reg: State, providers: map<string, Value>, name: string, provider: Value)
    requires name !in providers
    ensures RegisterV1(reg, providers[name := provider]).buckets ==
            RegisterOneV1(RegisterV1(reg, providers), name, provider).buckets
  {
    var mid := RegisterV1(reg, providers);
    assert mid.buckets == BucketsV1(reg, providers) && mid.current == reg.current;
    assert name in mid.defaults <==> name in reg.defaults;
    BucketsV1Step(reg, providers, name, provider);
  }

  /** Visiting one more name in the loop extends the closed form: the order
      in which the dictionary's names are visited does not matter. */
  lemma {:induction false} RegisterV1Step(reg: State, providers: map<string, Value>, name: string, provider: Value)
    requires name !in providers
    ensures RegisterV1(reg, providers[name := provider]) == RegisterOneV1(RegisterV1(reg, providers), name, provider)
  {
    RegisterV1StepDefaults(reg, providers, name, provider);
    RegisterV1StepBuckets(reg, providers, name, provider);
  }

  /** Where `RegisterV1` puts providers under an active profile: a name that
      is already a default goes to the active bucket (created when missing);
      a new name does not touch the bucket; other profiles are untouched. */
  lemma RegisterV1Buckets(reg: State, providers: map<string, Value>)
    ensures reg.current.None? ==> RegisterV1(reg, providers).buckets == reg.buckets
    ensures forall n :: reg.current.Some? && n in providers && n in reg.defaults ==>
              reg.current.value in RegisterV1(reg, providers).buckets &&
              n in Bucket(RegisterV1(reg, providers), reg.current.value) &&
              Bucket(RegisterV1(reg, providers), reg.current.value)[n] == providers[n]
    ensures forall n :: reg.current.Some? && (n !in providers || n !in reg.defaults) ==>
              (n in Bucket(RegisterV1(reg, providers), reg.current.value) <==> n in Bucket(reg, reg.current.value)) &&
              (n in Bucket(reg, reg.current.value) ==>
                 Bucket(RegisterV1(reg, providers), reg.current.value)[n] == Bucket(reg, reg.current.value)[n])
    ensures reg.current.Some? ==>
              (reg.current.value in RegisterV1(reg, providers).buckets <==>
                 reg.current.value in reg.buckets || exists n :: n in providers && n in reg.defaults)
    ensures forall p :: (reg.current.None? || p != reg.current.value) ==>
              (p in RegisterV1(reg, providers).buckets <==> p in reg.buckets) &&
              Bucket(RegisterV1(reg, providers), p) == Bucket(reg, p)
  {
    var r := RegisterV1(reg, providers);
    if reg.current.Some? {
      var p := reg.current.value;
      var ov := Overrides(reg, providers);
      assert forall n :: n in ov <==> n in providers && n in reg.defaults;
      if ov != map[] {
        assert Bucket(r, p) == Bucket(reg, p) + ov;
      }
    }
  }

  /** Registration rule of src/sqeezz/__init__.py for one provider: the
      default is written when no profile is active or the name is new; with a
      profile active the provider is also recorded in that profile's bucket,
      created when missing.  A new name registered under a profile therefore
      lands in both places. */
  function RegisterV2(reg: State, name: string, provider: Value): (r: State)
    ensures r.current == reg.current
    ensures name in r.defaults
    ensures reg.current.None? || name !in reg.defaults ==> r.defaults[name] == provider
    ensures reg.current.Some? && name in reg.defaults ==> r.defaults == reg.defaults
    ensures forall n :: n != name ==> (n in r.defaults <==> n in reg.defaults)
    ensures forall n :: n != name && n in reg.defaults ==> r.defaults[n] == reg.defaults[n]
    ensures reg.current.None? ==> r.buckets == reg.buckets
    ensures reg.current.Some? ==>
              r.buckets == reg.buckets[reg.current.value := Bucket(reg, reg.current.value)[name := provider]]
  {
    var defaults :=
      if reg.current.None? || name !in reg.defaults then reg.defaults[name := provider] else reg.defaults;
    var buckets :=
      if reg.current.None? then reg.buckets
      else reg.buckets[reg.current.value := Bucket(reg, reg.current.value)[name := provider]];
    State(defaults, buckets, reg.current)
  }

  /** Every name held in some profile bucket is also a default.  Both
      registration rules keep this, starting from the empty registry. */
  predicate BucketsWithinDefaults(reg: State) {
    forall p, n :: p in reg.buckets && n in reg.buckets[p] ==> n in reg.defaults
  }

  lemma {:induction false} RegisterV1KeepsBucketsWithinDefaults(reg: State, providers: map<string, Value>)
    requires BucketsWithinDefaults(reg)
    ensures BucketsWithinDefaults(RegisterV1(reg, providers))
  {
    var r := RegisterV1(reg, providers);
    RegisterV1Buckets(reg, providers);
    forall p, n | p in r.buckets && n in r.buckets[p] ensures n in r.defaults {
      assert n in Bucket(r, p);
      if reg.current.Some? && p == reg.current.value && (n !in providers || n !in reg.defaults) {
        assert n in Bucket(reg, p);
      }
    }
  }

  lemma {:induction false} RegisterV2KeepsBucketsWithinDefaults(reg: State, name: string, provider: Value)
    requires BucketsWithinDefaults(reg)
    ensures BucketsWithinDefaults(RegisterV2(reg, name, provider))
  {
    var r := RegisterV2(reg, name, provider);
    forall p, n | p in r.buckets && n in r.buckets[p] ensures n in r.defaults {
      if n != name {
        if reg.current.Some? && p == reg.current.value {
          assert n in Bucket(reg, p);
        } else {
          assert n in reg.buckets[p];
        }
      }
    }
  }

  /** With no active profile the two rules coincide: both write the default
      and leave the buckets alone. */
  lemma RegisterVariantsAgreeWithoutProfile(reg: State, name: string, provider: Value)
    requires reg.current.None?
    ensures RegisterV1(reg, map[name := provider]) == RegisterV2(reg, name, provider)
  {
    var r1, r2 := RegisterV1(reg, map[name := provider]), RegisterV2(reg, name, provider);
    RegisterV1Buckets(reg, map[name := provider]);
    assert r1.defaults == r2.defaults;
  }

  /** Under a profile, a name that is not yet a default becomes a default in
      both variants, but only the src variant also records it in the bucket;
      `profiles()` can therefore tell the two apart. */
  lemma RegisterVariantsDifferOnNewName(reg: State, name: string, provider: Value)
    requires reg.current.Some? && name !in reg.defaults
    ensures RegisterV1(reg, map[name := provider]).defaults[name] == provider
    ensures RegisterV2(reg, name, provider).defaults[name] == provider
    ensures name in Bucket(RegisterV1(reg, map[name := provider]), reg.current.value) <==>
            name in Bucket(reg, reg.current.value)
    ensures name in Bucket(RegisterV2(reg, name, provider), reg.current.value)
  {
    RegisterV1Buckets(reg, map[name := provider]);
  }

  /** Whichever profile is active at resolution time, registering one
      provider under either rule resolves the same, as long as every bucket
      name is a default (which both rules keep). */
  lemma {:induction false} RegisterVariantsResolveAlike(reg: State, name: string, provider: Value, active: Option<string>)
    requires BucketsWithinDefaults(reg)
    ensures Resolve(RegisterV1(reg, map[name := provider]).(current := active)) ==
            Resolve(RegisterV2(reg, name, provider).(current := active))
  {
    RegisterV1Single(reg, name, provider);
    if reg.current.Some? && name !in reg.defaults {
      NewNameResolvesAlike(reg, name, provider, active);
    } else {
      assert RegisterOneV1(reg, name, provider) == RegisterV2(reg, name, provider);
    }
  }

  /** `RegisterV1` with a single provider is one step of its loop. */
  lemma RegisterV1Single(reg: State, name: string, provider: Value)
    ensures RegisterV1(reg, map[name := provider]) == RegisterOneV1(reg, name, provider)
  {
    assert NewDefaults(reg, map[]) == map[];
    assert Overrides(reg, map[]) == map[];
    assert RegisterV1(reg, map[]) == reg;
    assert map[][name := provider] == map[name := provider];
    RegisterV1Step(reg, map[], name, provider);
  }

  /** A new name under a profile: the src rule's extra bucket entry repeats
      the new default, so it changes no resolution. */
  lemma NewNameResolvesAlike(reg: State, name: string, provider: Value, active: Option<string>)
    requires BucketsWithinDefaults(reg)
    requires reg.current.Some? && name !in reg.defaults
    ensures Resolve(RegisterOneV1(reg, name, provider).(current := active)) ==
            Resolve(RegisterV2(reg, name, provider).(current := active))
  {
    var p := reg.current.value;
    var d := reg.defaults[name := provider];
    var r1 := RegisterOneV1(reg, name, provider).(current := active);
    var r2 := RegisterV2(reg, name, provider).(current := active);
    assert r1 == State(d, reg.buckets, active);
    assert r2 == State(d, reg.buckets[p := Bucket(reg, p)[name := provider]], active);
    if active == Some(p) {
      assert name !in Bucket(reg, p);
      assert d + Bucket(reg, p)[name := provider] == d + Bucket(reg, p);
      if p !in reg.buckets {
        assert d + map[][name := provider] == d;
      }
    } else if active.Some? {
      assert Bucket(r1, active.value) == Bucket(r2, active.value);
    }
  }

  /** Profile precedence under the sqeezz/__init__.py rule: register
      `db = "sqlite"` with no profile, activate `"test"`, register
      `db = "mock"`; resolution gives `"mock"` while `"test"` is active and
      `"sqlite"` once the profile is cleared or another one is active.
      Re-registering with no profile replaces the default. */
  lemma {:induction false} ProfilePrecedenceScenarioV1()
    ensures var r0 := RegisterV1(Empty(), map["db" := Str("sqlite")]);
            var r1 := RegisterV1(r0.(current := ProfileArg(Str("test"))), map["db" := Str("mock")]);
            && Resolve(r1)["db"] == Str("mock")
            && Resolve(r1.(current := ProfileArg(NoneValue)))["db"] == Str("sqlite")
            && Resolve(r1.(current := ProfileArg(Str("other"))))["db"] == Str("sqlite")
            && RegisterV1(r1.(current := None), map["db" := Str("file")]).defaults["db"] == Str("file")
  {
    var r0 := RegisterV1(Empty(), map["db" := Str("sqlite")]);
    RegisterV1Buckets(Empty(), map["db" := Str("sqlite")]);
    assert r0.buckets == map[] && r0.defaults["db"] == Str("sqlite");
    var t := r0.(current := Some("test"));
    RegisterV1Buckets(t, map["db" := Str("mock")]);
    var r1 := RegisterV1(t, map["db" := Str("mock")]);
    assert r1.defaults["db"] == Str("sqlite");
    assert Overridden(r1, "db");
    assert "other" !in r1.buckets;
  }

  /** The same scenario under the src/sqeezz/__init__.py rule. */
  lemma {:induction false} ProfilePrecedenceScenarioV2()
    ensures var r0 := RegisterV2(Empty(), "db", Str("sqlite"));
            var r1 := RegisterV2(r0.(current := ProfileArg(Str("test"))), "db", Str("mock"));
            && Resolve(r1)["db"] == Str("mock")
            && Resolve(r1.(current := ProfileArg(NoneValue)))["db"] == Str("sqlite")
            && Resolve(r1.(current := ProfileArg(Str("other"))))["db"] == Str("sqlite")
            && RegisterV2(r1.(current := None), "db", Str("file")).defaults["db"] == Str("file")
  {
    var r0 := RegisterV2(Empty(), "db", Str("sqlite"));
    var r1 := RegisterV2(r0.(current := Some("test")), "db", Str("mock"));
    assert Overridden(r1, "db");
    assert "other" !in r1.buckets;
  }
}
