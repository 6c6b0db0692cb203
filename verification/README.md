# sqeezz, modelled in Dafny

sqeezz is a small Python 2 dependency-injection library. Providers are registered by name, either as defaults or under a named profile. A decorated function then receives the resolved providers as keyword arguments.

This project models the library's core:

- the provider registry in its two historical variants: `sqeezz/__init__.py`, where a placeholder keyword is replaced by its provider, and `src/sqeezz/__init__.py`, where one "injection point" keyword carries a bundle of providers and bindings;
- the argument mapper (`create_args_dict`, `remove_invalid_kwargs`, `remove_dup_kwargs`);
- the `Call` wrappers with their argument-precedence merge;
- the strict-type decorators;
- the small stateful helpers: the lazy singletons, the test mocks, and the `StringConcat` buffer.

## How the model is organised

Python's objects are one `Value` datatype (`common.dfy`). A callable is an abstract `Signature`: its parameter names in order, and whether it takes `**kwargs`.

Things the library cannot see into are passed in as parameters:

- `isinstance` on classes (`isA`);
- constructing the wrapped class of a singleton (`cls`);
- `unicode()` of a non-string (`unicodeOf`);
- calling an object (`invoke`);
- the interpreter's recursion limit (`limit`).

Code that mutates dictionaries and class attributes is written as classes with `modifies` clauses:

- `Sqeezz.Inject` and `SrcInject.Injector` hold the registries;
- `StrictType.TypeDecl` holds the stored type map;
- the singletons, mocks and `StringConcat` are classes too.

Each such method is tied to a pure specification function (`RegisterV1`, `RegisterV2`, `Resolve`, `Prepared`, `Substituted`, `Wrapped`, `Merged`, ...), and the lemmas are proved about those functions.

The proofs that carry the weight are the loop invariants of `RemoveInvalidKwargs`, `RemoveDupKwargs`, `FillPlaceholders`, `CheckAll` and `Inject.Register`, and the step lemmas `RegisterV1Step` and `BucketsV1Step` that tie the registration loop to its closed form. The recursion lemmas for the defects (`UnsetAttributeExhaustsStack`, `ClassInstanceAsWritten`) hold by construction: they record that a cycle has no exit or that an attribute is never set.

Loops over a dictionary pick their next key with `:|`, because Python 2 gives no iteration order. Their results are therefore proved for every order; where an error stops the loop, the model states that some offending key is reported.

Modules, one per file:

- `Common`
- `FuncUtils` (`sqeezz/utils.py`)
- `FuncTools` (`sqeezz/tools.py`)
- `Registry`, the state shared by both injectors
- `Sqeezz` (`sqeezz/__init__.py`)
- `SrcInject` (`src/sqeezz/__init__.py`)
- `CallMerge`, the `Call` classes of the three modifier files
- `StrictType`
- `Singletons`
- `Mocks` (`src/sqeezz/test.py`)
- `Magic` (`sqeezz_magic/__init__.py`)

## Model

| member | source | states |
|---|---|---|
| Common.Lookup | src/sqeezz/__init__.py:41-45 | a view lookup yields the stored value for a present name and None for a missing one, instead of raising |
| Common.ReadThroughGetAttr | src/sqeezz/__init__.py:9-16 | reading an attribute that is present succeeds at once; an unset one re-enters `__getattr__` |
| Common.UnsetAttributeExhaustsStack | src/sqeezz/__init__.py:6-16 | an unset private slot read through a self-reading `__getattr__` raises RuntimeError (maximum recursion depth), whatever the recursion limit |
| Common.IndexOf | sqeezz_magic/__init__.py:24 | the index found holds `x` and no earlier element equals `x` (the element `list.remove` drops) |
| Common.RemoveFirst | sqeezz_modifiers/__init__.py:267 | `list.remove(x)` drops exactly the first occurrence of `x`; the list is one shorter, and a list without `x` is unchanged |
| Common.RemoveFirstAt | sqeezz_modifiers/__init__.py:267 | after `list.remove(x)` the elements before the removed occurrence keep their index and the later ones move down by one |
| Common.RemoveFirstKeeps | sqeezz_modifiers/__init__.py:267 | every element other than the removed occurrence is still in the list, at its index or one lower |
| FuncUtils.CreateArgsDict | sqeezz/utils.py:44-56 | the keys are exactly the first min(#params, #args) parameter names; surplus parameters or positionals are dropped |
| FuncUtils.CreateArgsDictAt | sqeezz/utils.py:54-56 | the i-th filled parameter is bound to the i-th positional when the name does not repeat later, as `dict(izip(...))` keeps the last binding |
| FuncUtils.CreateArgsDictDistinct | sqeezz/utils.py:54-56 | with distinct parameter names, every filled parameter holds its own positional |
| FuncUtils.CreateArgsDictPair | sqeezz/utils.py:54-56 | two distinct parameters zipped with two values give exactly those two bindings |
| FuncUtils.CreateArgsDictExample | sqeezz/test_utils.py:31-37 | `create_args_dict(f, (1, 2))` for `f(arg1, arg2)` is exactly `{arg1: 1, arg2: 2}` |
| FuncUtils.RemoveInvalidKwargs | sqeezz/utils.py:33-42 | after both deletion loops, a keyword survives iff it is not filled positionally and (the callable takes `**kwargs` or it is declared); kept values are unchanged; an empty dictionary is left alone |
| FuncUtils.RemoveInvalidKwargsAsWritten | sqeezz/utils.py:39-42 | as written, the call raises "dictionary changed size during iteration" iff the second loop has an undeclared keyword to delete; otherwise it agrees with the intended removal |
| FuncUtils.ExtraneousKeywordRaisesAsWritten | sqeezz/utils.py:39-42 | for `f(a, b)` with `(1, 2)` and `c=3`, the intended removal leaves `{}` but the code as written raises |
| FuncUtils.RemoveInvalidKwargsExamples | sqeezz/test_utils.py:13-29 | positionals `(1, 2)` with `{arg1: 3}` leave `{}`; positionals `(1,)` with `{arg2: 2}` leave it unchanged |
| FuncUtils.InvalidKwargsRemovedIdempotent | sqeezz/utils.py:33-42 | the removal only deletes (result keys are a subset of the input's), and removing again changes nothing |
| FuncUtils.InvalidKwargsRemovedNoPositionals | sqeezz_modifiers/__init__.py:73 | with `[]` as positionals nothing counts as filled: only the signature filter applies, and values are kept |
| FuncTools.RemoveDupKwargs | sqeezz/tools.py:17-22 | a keyword survives iff no positional fills it, with no signature filter; kept values are unchanged; an empty dictionary returns at once |
| FuncTools.DupRemovalIsInvalidRemovalWithKwargs | sqeezz/tools.py:20-22 | for a callable with `**kwargs` the two removals agree; otherwise `remove_invalid_kwargs` keeps a subset of what `remove_dup_kwargs` keeps |
| FuncTools.RemoveDupKwargsExamples | sqeezz/test_tools.py:13-29 | the unit-test dictionaries: `{}` and `{arg2: 2}`; an undeclared keyword survives |
| FuncTools.CreateArgsDictToolsExample | sqeezz/test_tools.py:31-37 | `(1, 2)` gives `{arg1: 1, arg2: 2}`, and a third positional is dropped |
| Registry.Resolve | sqeezz/__init__.py:149-153 | resolved names are the defaults plus the active profile's bucket; bucket entries win; with no active bucket only defaults are seen |
| Registry.RegisterV1 | sqeezz/__init__.py:41-50 | with no profile or for a new name the provider becomes the default (last write wins); under a profile an existing default is left untouched; the profile is unchanged |
| Registry.RegisterOneV1 | sqeezz/__init__.py:44-50 | one loop pass: when every bucket name is a default, the registered name resolves to its provider under the current profile; no other name's resolution changes |
| Registry.RegisterV1Buckets | sqeezz/__init__.py:46-50 | under a profile an existing default's new provider lands in the active bucket, created when missing; new names do not touch it; other profiles are untouched; with no profile no bucket changes |
| Registry.RegisterV1Step | sqeezz/__init__.py:43-50 | one more loop iteration extends the closed form, so the dictionary's visiting order does not matter |
| Registry.RegisterV1StepDefaults | sqeezz/__init__.py:44-45 | the defaults part of the step |
| Registry.RegisterV1StepBuckets | sqeezz/__init__.py:46-50 | the buckets part of the step |
| Registry.BucketsV1Step | sqeezz/__init__.py:46-50 | one more provider for a name that is already a default under an active profile is written into that profile's bucket, created when missing; otherwise the buckets are unchanged |
| Registry.NewDefaultsStep | sqeezz/__init__.py:44-45 | adding one provider adds it to the written defaults exactly when the default rule applies |
| Registry.OverridesStep | sqeezz/__init__.py:46-50 | adding one provider adds it to the bucket writes exactly when the bucket rule applies |
| Registry.RegisterV2 | src/sqeezz/__init__.py:107-116 | the default is written iff no profile is active or the name is new; under a profile the provider is also put in that profile's bucket (created when missing); nothing else changes |
| Registry.RegisterV1KeepsBucketsWithinDefaults | sqeezz/__init__.py:41-50 | registration keeps every bucket name a default |
| Registry.RegisterV2KeepsBucketsWithinDefaults | src/sqeezz/__init__.py:107-116 | registration keeps every bucket name a default |
| Registry.RegisterVariantsAgreeWithoutProfile | src/sqeezz/__init__.py:107-116 | with no active profile both rules produce the same registry |
| Registry.RegisterVariantsDifferOnNewName | src/sqeezz/__init__.py:112-116 | a new name under a profile becomes a default in both variants, but only the src variant records it in the bucket |
| Registry.RegisterVariantsResolveAlike | src/sqeezz/__init__.py:56-63 | whatever profile is active at resolution, both rules resolve alike when bucket names are defaults |
| Registry.RegisterV1Single | sqeezz/__init__.py:43-50 | registering a one-entry dictionary is exactly one pass of the loop |
| Registry.NewNameResolvesAlike | src/sqeezz/__init__.py:56-63 | for a name new under a profile, the src rule's extra bucket entry equals the new default, so every active profile resolves as under the sqeezz rule |
| Registry.ProfilePrecedenceScenarioV1 | sqeezz/__init__.py:30-50 | the `db` scenario: the profile provider wins while its profile is active; the default is seen once the profile is cleared or another is active; re-registering with no profile overwrites |
| Registry.ProfilePrecedenceScenarioV2 | src/sqeezz/__init__.py:97-116 | the same scenario under the src rule |
| Sqeezz.NamedProviders | sqeezz/__init__.py:124-128 | the registered names are the keyword names plus the `__name__` of each positional that has one; positionals without a name are dropped |
| Sqeezz.LastNamedProviderWins | sqeezz/__init__.py:125-127 | a named positional overrides a same-named keyword provider and any earlier positional of that name |
| Sqeezz.KeywordProviderKept | sqeezz/__init__.py:124-128 | a keyword provider survives when no positional carries its name |
| Sqeezz.Substituted | sqeezz/__init__.py:139-142 | the filled keywords have exactly the prepared keyword names |
| Sqeezz.Inject.constructor | sqeezz/__init__.py:13-15 | the class attributes start empty with no profile |
| Sqeezz.Inject.Providers | sqeezz/__init__.py:25-27 | `providers()` is the defaults copy, the resolution with no profile |
| Sqeezz.Inject.CurrentProfile | sqeezz/__init__.py:17-19 | `current_profile()` reads the active profile |
| Sqeezz.Inject.ProfileProviders | sqeezz/__init__.py:21-23 | `p_providers()` reads the profile buckets |
| Sqeezz.Inject.Profiles | sqeezz/__init__.py:36-38 | `profiles()` gives the names of the profiles that own a bucket |
| Sqeezz.Inject.Profile | sqeezz/__init__.py:29-34 | a string selects that profile; any other value clears it; providers are unchanged |
| Sqeezz.Inject.RegisterOne | sqeezz/__init__.py:44-50 | one loop pass: the provider becomes the default when no profile is active or the name is new, and otherwise goes into the active profile's bucket, created when missing |
| Sqeezz.Inject.Register | sqeezz/__init__.py:40-50 | the loop, in any order, leaves exactly `RegisterV1` of the old state |
| Sqeezz.Inject.SqeezzRegister | sqeezz/__init__.py:123-128 | `Sqeezz.register` registers the keyword providers extended by the named positionals |
| Sqeezz.Inject.InjectCall | sqeezz/__init__.py:131-157 | when the removal of invalid keywords raises (an undeclared keyword for a callable without `**kwargs`), the call ends in RuntimeError; otherwise it succeeds iff no prepared keyword is a placeholder without provider or an `Imported`, passes the placeholders replaced by the profile-resolved providers, and else raises the KeyError/AttributeError of some such keyword |
| Sqeezz.PrepareKeywords | sqeezz/__init__.py:134-155 | RuntimeError exactly when the as-written removal raises; otherwise the keywords after the removal with the mapped positionals laid over them |
| Sqeezz.UndeclaredKeywordRaisesInInject | sqeezz/__init__.py:112-155 | `Sqeezz.inject(f, c=3)` for `def f(a)` raises in the removal, where the intended removal would leave no keywords |
| Sqeezz.FillPlaceholders | sqeezz/__init__.py:139-147 | the filling loop succeeds iff every keyword is resolvable, yields the substitution, and otherwise raises for some unresolvable keyword (only TypeError is caught) |
| Sqeezz.NameProviders | sqeezz/__init__.py:125-127 | the naming loop yields `NamedProviders` |
| Sqeezz.PositionalWinsOverKeyword | sqeezz/__init__.py:134-137 | the i-th positional reaches the i-th parameter even when a same-named keyword was passed |
| Sqeezz.SubstitutionTouchesOnlyPlaceholders | sqeezz/__init__.py:141-142 | only placeholder values change, into the provider of that name; other values pass as given |
| Sqeezz.PreparedWithoutPositionals | sqeezz/__init__.py:134-137 | without positionals, declared keywords reach the filling loop unchanged |
| Sqeezz.MissingProviderRaisesKeyError | sqeezz/__init__.py:139-147 | a placeholder with no provider makes the call fail with KeyError for that name |
| Sqeezz.InjectionFollowsActiveProfile | sqeezz/__init__.py:149-155 | `f(db=Injected)` receives the profile provider while the profile is active and the default after it is cleared |
| Sqeezz.SubstitutedSingle | sqeezz/__init__.py:141-142 | a single placeholder keyword becomes its provider |
| SrcInject.Wrapped | src/sqeezz/__init__.py:53-65 | a caller-supplied injection-point keyword leaves the keywords unchanged; otherwise exactly that keyword is added and all others are kept |
| SrcInject.BundleProvider | src/sqeezz/__init__.py:26-45 | `provider(name)` on the bundle gives the resolved provider, or None for an unknown name |
| SrcInject.BundleBinding | src/sqeezz/__init__.py:9-13 | attribute lookup on the bindings view gives the binding, or None for an unknown name |
| SrcInject.BundleExposesResolution | src/sqeezz/__init__.py:26-45 | the added bundle yields the profile-resolved provider, the binding, or None for unknown names |
| SrcInject.WrapAsWritten | src/sqeezz/__init__.py:55-63 | as written, a successful wrap agrees with the intended one |
| SrcInject.WrapRaisesAsWritten | src/sqeezz/__init__.py:5-16 | as written, every call without the keyword raises RuntimeError while building the bindings view |
| SrcInject.Injector.constructor | src/sqeezz/__init__.py:47-51 | empty registry and bindings; injection point `'injected'` |
| SrcInject.Injector.Binding | src/sqeezz/__init__.py:85-87 | `binding(name, value)` overwrites that one global binding and changes nothing else |
| SrcInject.Injector.InjectionPoint | src/sqeezz/__init__.py:89-94 | a string renames the injection point and returns nothing; anything else returns the current name unchanged |
| SrcInject.Injector.Profile | src/sqeezz/__init__.py:96-101 | a string selects that profile; anything else clears it |
| SrcInject.Injector.Profiles | src/sqeezz/__init__.py:103-105 | `profiles()` gives the names of the profiles that own a bucket |
| SrcInject.Injector.Register | src/sqeezz/__init__.py:107-116 | the registry becomes `RegisterV2` of the old one |
| SrcInject.Injector.Wrap | src/sqeezz/__init__.py:53-63 | the keywords passed on are `Wrapped` over the current registry; the stored registry is not changed |
| CallMerge.LayeredIsPick | sqeezz_modifiers/__init__.py:65-71 | the successive `update`s realise the precedence: call positional > call keyword > stored positional > stored keyword |
| CallMerge.Merged | sqeezz_modifiers/__init__.py:54-75 | a name reaches the callable iff some level supplies it and it is declared (or `**kwargs` is taken), with the value of the highest level |
| CallMerge.Invoke | sqeezz_modifiers/__init__.py:65-73 | the update-and-remove steps compute `Merged` |
| CallMerge.FullPositionalsDecide | sqeezz_modifiers/__init__.py:65-73 | call positionals covering every parameter decide every argument |
| CallMerge.FullPositionalsKeys | sqeezz_modifiers/__init__.py:65-73 | with such positionals the merged names are exactly the parameters |
| CallMerge.CallExampleWithArguments | sqeezz_modifiers/test__init__.py:12-20 | `Call(f, 1, arg2=2)(3, 4)` passes `(3, 4)` |
| CallMerge.CallExampleBare | sqeezz_modifiers/test__init__.py:12-20 | `Call(f, 1, arg2=2)()` passes `(1, 2)` |
| CallMerge.InvokeToolsAsWritten | sqeezz/modifiers.py:43-64 | the `Call` of sqeezz/modifiers.py would merge as `Merged`, but as written it looks `remove_invalid_kwargs` up on `FuncTools` |
| CallMerge.CallRaisesAsWritten | sqeezz/modifiers.py:62 | as written every call raises AttributeError, the unit test included (sqeezz/test_modifiers.py:12-20), where `(3, 4)` is intended |
| CallMerge.RemoveInvalidKwargsNotInFuncTools | sqeezz/modifiers.py:62 | `remove_invalid_kwargs` is not among the members `FuncTools` offers, which is why the lookup fails |
| CallMerge.SrcArguments | src/sqeezz/modifiers.py:11-15 | call positionals come first, then stored ones; stored keywords override call keywords; other call keywords pass; nothing is filtered |
| CallMerge.InvokeSrc | src/sqeezz/modifiers.py:11-15 | the in-place `+=`/`update` compute `SrcArguments` |
| CallMerge.KeywordPrecedenceOpposes | src/sqeezz/modifiers.py:13 | the two `Call` variants rank a keyword given both ways oppositely |
| StrictType.ScanInstance | sqeezz_modifiers/__init__.py:250 | `isinstance` with a tuple scans left to right: it raises TypeError exactly when it reaches None before any class the value belongs to, and is true exactly when it reaches such a class first; for a None-free tuple it is true iff some class holds |
| StrictType.ScanShift | sqeezz_modifiers/__init__.py:250 | past a first class the value does not belong to, the scan of the tuple meets what the scan of its rest meets |
| StrictType.IsInstance | sqeezz_modifiers/__init__.py:250 | the same for a single class or a tuple: `isinstance(v, None)` raises TypeError, a single class answers directly, and a tuple raises exactly when None comes before any matching class |
| StrictType.IsInstanceNoneFree | sqeezz_modifiers/__init__.py:250 | on a None-free spec `isinstance` does not raise and is true iff some class holds the value |
| StrictType.Rebuild | sqeezz_modifiers/__init__.py:268-271 | the rebuilt spec has exactly the remaining elements |
| StrictType.ExtractNone | sqeezz_modifiers/__init__.py:257-273 | None is allowed iff the spec names it; the returned spec is the spec with the first None removed, and is unchanged without None |
| StrictType.ExtractNoneAsWritten | sqeezz_modifiers/__init__.py:262-273 | as written it fails iff the spec is a single class or `(None,)`, and otherwise agrees with `ExtractNone` |
| StrictType.CheckTypeAsWritten | sqeezz_modifiers/__init__.py:243-255 | as written, the check is the intended one unless `_extract_none` raised, whose error it passes on |
| StrictType.CheckType | sqeezz_modifiers/__init__.py:243-255 | the intended `_check_type` fails only with the mismatch TypeError naming the argument or with `isinstance`'s TypeError, and the latter only when the spec holds a second None |
| StrictType.RemovingNoneKeepsClasses | sqeezz_modifiers/__init__.py:265-267 | removing None does not change which classes hold a value |
| StrictType.CheckTypeMeaning | sqeezz_modifiers/__init__.py:243-255 | for a spec with at most one None, `_check_type` passes iff the value is an instance of one of the classes or is None and None is allowed; otherwise it raises the mismatch TypeError |
| StrictType.SingleClassRaisesAsWritten | sqeezz_modifiers/__init__.py:264 | a single-class spec raises TypeError as written even for a matching value, which the intended check passes |
| StrictType.OnlyNoneRaisesAsWritten | sqeezz_modifiers/__init__.py:268-271 | `(None,)` raises IndexError as written, where None alone is meant to pass |
| StrictType.CheckTypePlainMeaning | sqeezz/modifiers.py:178-186 | the plain `isinstance` check passes iff the value is an instance of a class of the spec |
| StrictType.CheckTypePlain | sqeezz/modifiers.py:177-186 | the plain `isinstance` check fails only with the mismatch TypeError or with `isinstance`'s TypeError, the latter only for a spec naming None; `isinstance(v, None)` always raises |
| StrictType.CheckAll | sqeezz_modifiers/__init__.py:285-290 | the loop passes iff every declared name's keyword value and mapped positional pass, and otherwise raises the failure of some failing name |
| StrictType.TypeDecl.StrictInner | sqeezz_modifiers/__init__.py:275-292 | checks and the stored-map update happen only when the test switch is on; the call then succeeds iff every declared name passes, and it receives the original arguments |
| StrictType.TypeDecl.TypeInner | sqeezz/modifiers.py:171-189 | the mapped positional type specs are merged into the persistent keyword type map; the call succeeds iff every declared name passes the plain check; the arguments are unchanged |
| StrictType.ReadInstance | sqeezz_modifiers/__init__.py:22-31 | with the class attribute unset, the switch read is the class default, off |
| StrictType.TestTypeStepAsWritten | sqeezz_modifiers/__init__.py:22-31 | as written a `test_type` call leaves an unset class attribute unset |
| StrictType.ClassInstanceAsWritten | sqeezz_modifiers/__init__.py:24-31 | as written the class attribute stays unset across any series of `test_type` calls |
| StrictType.TestSwitchAsWritten | sqeezz_modifiers/__init__.py:280 | as written the switch `_inner` reads is always off |
| StrictType.ClassInstance | sqeezz_modifiers/__init__.py:314-315 | as intended, the shared instance holds the last `test_type` value |
| StrictType.TestSwitch | sqeezz_modifiers/__init__.py:314-315 | as intended, the switch is on iff the last `test_type` call passed true |
| StrictType.TestSwitchLostAsWritten | sqeezz_modifiers/__init__.py:29-31 | after `test_type(True)` the switch is off as written and on as intended |
| Singletons.LazyStep | sqeezz/singleton.py:10-14 | a truthy instance is kept; a falsy one (the empty start included) is replaced by one built from this call's arguments |
| Singletons.FirstTruthyInstanceKept | sqeezz/singleton.py:10-14 | once the first call builds a truthy instance, every later call returns it, ignoring its arguments |
| Singletons.FalsyInstanceRebuilt | sqeezz/singleton.py:11 | a class whose instances are falsy is constructed again on every call |
| Singletons.LazySingleton.constructor | sqeezz/singleton.py:5-8 | holds the class (its constructor and its attributes); the instance starts empty |
| Singletons.LazySingleton.Call | sqeezz/singleton.py:10-14 | `__call__` performs `LazyStep` and returns the stored instance |
| Singletons.LazySingleton.GetAttr | sqeezz/singleton.py:16-17 | `__getattr__` reads the attribute from the wrapped class, not from the instance; a name the class lacks raises AttributeError |
| Singletons.AttributesComeFromClass | sqeezz/singleton.py:10-17 | attribute access reads the same before and after calls that build or keep an instance |
| Singletons.SrcCreated | src/sqeezz/modifiers.py:98-101 | creation builds only while the instance is None and keeps any other value, falsy or not |
| Singletons.SrcCreationOnce | src/sqeezz/modifiers.py:98-101 | once set, the instance is never replaced |
| Singletons.FalsyInstanceTreatedDifferently | sqeezz/singleton.py:11 | an instance `0` is rebuilt by the lazy singleton and kept by the src one (src/sqeezz/modifiers.py:99) |
| Singletons.SrcSingleton.constructor | src/sqeezz/modifiers.py:81-84 | the intended construction stores the call with the construction arguments spread into it, and no instance |
| Singletons.SrcSingleton.Built | src/sqeezz/modifiers.py:101 | the stored `Call` invoked with nothing builds `cls(*args, **kwargs)` from the construction arguments |
| Singletons.PackedArgumentsAsWritten | src/sqeezz/modifiers.py:83 | as written the stored call passes the argument tuple and keyword dictionary as two positionals and no keywords, so `Singleton(C)` builds `C((), {})` rather than `C()` |
| Singletons.SrcSingleton.CreateInstance | src/sqeezz/modifiers.py:98-101 | `__create_instance` performs `SrcCreated` |
| Singletons.SrcSingleton.Call | src/sqeezz/modifiers.py:86-88 | `__call__` creates if needed, then calls the instance |
| Singletons.SrcSingleton.Instance | src/sqeezz/modifiers.py:103-104 | `instance()` reads the stored instance without creating one (its meaning is stated by `Singletons.InstanceAfterFirstUse`) |
| Singletons.InstanceAfterFirstUse | src/sqeezz/modifiers.py:86-104 | `instance()` reads None before the first use and afterwards the instance built from the stored call |
| Singletons.SrcConstructAsWritten | src/sqeezz/modifiers.py:81-96 | as written, a successful construction stores the call and no instance |
| Singletons.SrcConstructRaisesAsWritten | src/sqeezz/modifiers.py:81-104 | as written every construction raises RuntimeError |
| Mocks.MockView.Get | src/sqeezz/test.py:6-10 | a view lookup yields the member, or None for a missing name |
| Mocks.CallMember | src/sqeezz/test.py:12-17 | calling a mock method yields its stored value whatever the arguments |
| Mocks.Mock.constructor | src/sqeezz/test.py:19-21 | a named mock with an empty member dictionary |
| Mocks.Mock.AddMethod | src/sqeezz/test.py:23-26 | stores a method member under the name and returns the mock itself |
| Mocks.Mock.AddAttribute | src/sqeezz/test.py:28-31 | stores the value under the name, overwriting, and returns the mock itself |
| Mocks.Mock.Create | src/sqeezz/test.py:33-34 | a one-entry map from the mock's name to a view over its member dictionary |
| Mocks.Mock.SetValue | src/sqeezz/test.py:36-37 | the given dictionary replaces the members |
| Mocks.ProvidersView.Get | src/sqeezz/test.py:45-47 | the bundle yields the mock view of that name, or None |
| Mocks.MockInjector.constructor | src/sqeezz/test.py:49-51 | an injector with the given injection point and no mocks |
| Mocks.MockInjector.AddMock | src/sqeezz/test.py:53-56 | the mock's name maps to a view of its members, replacing an earlier mock of that name; other names are kept; returns itself |
| Mocks.MockInjector.Create | src/sqeezz/test.py:58-59 | `{injection_point: view}` over the mocks dictionary |
| Mocks.ViewSeesLaterMembers | src/sqeezz/test.py:23-34 | a view created before `add_method` sees the method, and calling it yields the value |
| Mocks.ReplacedMembersHiddenFromEarlierView | src/sqeezz/test.py:33-37 | after `value(...)` earlier views keep the old members, later views show the new ones, and missing names yield None |
| Mocks.InjectorBundle | src/sqeezz/test.py:41-59 | the injector bundle resolves a mock by name (the later of two same-named mocks), and a missing name to None |
| Magic.Chars | sqeezz_magic/__init__.py:15 | `extend` with a string adds one piece per character |
| Magic.JoinAppend | sqeezz_magic/__init__.py:31-32 | joining distributes over appending pieces |
| Magic.JoinChars | sqeezz_magic/__init__.py:15-32 | joining a string's characters gives the string back |
| Magic.StringConcat.constructor | sqeezz_magic/__init__.py:5-9 | a string becomes the single initial piece; any other value gives an empty buffer |
| Magic.StringConcat.Add | sqeezz_magic/__init__.py:11-17 | `+` appends the characters of the text (non-strings via `unicode`); the rendering becomes the old rendering followed by the text; returns itself |
| Magic.StringConcat.Sub | sqeezz_magic/__init__.py:22-29 | `-` removes the first piece equal to the argument; without one the buffer is unchanged and no error escapes; returns itself |
| Magic.StringConcat.Clear | sqeezz_magic/__init__.py:34-37 | the buffer empties and renders as `''`; returns itself |
| Magic.StringConcat.Render | sqeezz_magic/__init__.py:31-32 | `__unicode__` joins the pieces; what it renders after `+` and `clear()` is stated by those members' ensures |
| Magic.MultiCharacterNotSubtracted | sqeezz_magic/__init__.py:15-24 | subtracting a string of other than one character that was added by `+` has no effect |
| Magic.SubtractRemovesOneOccurrence | sqeezz_magic/__init__.py:24 | subtracting a present piece removes exactly one occurrence (as multisets) |
| Magic.ConcatExample | sqeezz_magic/__init__.py:5-32 | `StringConcat("ab") + "cd"` renders `"abcd"`; subtracting `"cd"` changes nothing, and subtracting `"c"` gives `"abd"` |

## Left out

- `sqeezz_magic/magic_path.py`: filesystem and platform path semantics.
- `Data` and `File` in all three modifier files: file I/O and closing on exit.
- `threading.RLock`: concurrency only; each use creates a fresh lock.
- The `Singleton` of sqeezz/modifiers.py: the same lock-guarded construction as the src one, including its recursive `__setattr__`/`__getattr__`. It is not modelled separately.
- sqeezz/new.py: a pass-through wrapper.
- `ImportUtils`, `Imported` and `ModuleLoader`: dynamic import is a foreign call. An `Imported` keyword in `_inject` is modelled only through its outcome when the import succeeds: `create()` returns a `(name, module)` tuple, which has no `values`, so the AttributeError escapes, and `Sqeezz.FailureFor` gives that error.
- `Sqeezz.FailureFor`: assumes the import of an `Imported` keyword succeeds. A failed `import_module` raises ImportError instead. A relative name without a package raises TypeError, which the `except TypeError` swallows, so the `Imported` object itself reaches the callable. Neither outcome is modelled.
- The decorators `inject`, `register`, `_register`, `strict_type`, `Sqeezz.inject`, and the `decorator` library's `decorate`: the model works on the argument lists a decorated call receives. Calling the wrapped function itself is not modelled.
- `inspect.getargspec`: abstracted into `Signature`. The parameter list is the declared positional names, and varargs and defaults are not modelled.
- `isinstance` on classes, `callable`, and `unicode()` of non-strings are uninterpreted parameters.
- Python truthiness of user objects: `Truthy` treats every object as true, as if none defines `__len__`/`__nonzero__`. Empty tuples and dictionaries are false.
- `profiles()`: returned as the set of profile names rather than as an iterator.
- The bundle of src/sqeezz/__init__.py: `__Injected.binding(name)` uses the class `Unset` as its default, which is not an instance of itself, so a one-argument call stores `Unset` as the binding rather than reading it. The bundle's `binding` is modelled as the lookup it is meant to be (`SrcInject.BundleBinding`). The view it writes through cannot be built as written anyway (see Findings).
- The `Mocks` views hold the builders' dictionaries by reference, as in the source. Whether a dictionary passed to `value(...)` is later changed by its owner is not followed.
- `Magic.Chars`, `Magic.StringConcat.Add`, `Magic.StringConcat.Render`: strings are modelled as text, one piece per character. A Python 2 byte `str` with non-ASCII bytes is not modelled: `extend` adds one piece per byte, and `unicode()` of the joined bytes raises UnicodeDecodeError.
- `StringConcat.__repr__`: Python's quoting of the joined text is not modelled; `__unicode__` is, as `Render`.
- `StringConcat.__sub__` re-raises a ValueError whose message differs from `list.remove`'s. `list.remove` always raises with that message, so that branch is not modelled.
- sqeezz_modifiers/__init__.py:4 imports `FuncTools` from `sqeezz.utils`, which defines only `FuncUtils`, so importing that module raises ImportError. The model reads the helpers as the `FuncUtils` ones the code evidently means.
- `StrictType.TypeDecl.StrictInner`: the test switch is an input rather than the `_TestType` read, which as written is always off (see Findings). With the switch on it checks with the corrected `_extract_none` (`StrictType.CheckType`). As written, every single-class spec raises TypeError and a None-only spec raises IndexError (`StrictType.CheckTypeAsWritten`, see Findings). It is also kept apart from `_check_type`'s rendering of the TypeError message.
- `CallMerge.Invoke`: uses the corrected removal of invalid keywords. Neither `Call.__call__` reaches the as-written one, which raises on an undeclared keyword: one file fails to import and the other lacks the method (see Findings).
- Integer widths play no role: the library does no arithmetic.

## Findings

| source | as written | input that shows it | evidently intended | confidence | as-written member | corrected member |
|---|---|---|---|---|---|---|
| sqeezz/utils.py:39-42 | deletes from `kwargs` while iterating `kwargs.iterkeys()`, so Python 2 raises "dictionary changed size during iteration" | `f(a, b)` with `(1, 2)` and `{c: 3}` | drop undeclared keywords | high; not executed | FuncUtils.ExtraneousKeywordRaisesAsWritten | FuncUtils.RemoveInvalidKwargs |
| sqeezz/modifiers.py:62 | `Call` extends `FuncTools`, which has no `remove_invalid_kwargs`, so every call raises AttributeError | `Call(f, 1, arg2=2)(3, 4)` | the `FuncUtils` removal, passing `(3, 4)` | high; not executed | CallMerge.CallRaisesAsWritten | CallMerge.Invoke |
| sqeezz_modifiers/__init__.py:29-31 | `__init__` stores the `_Instance` on the new object rather than the class, so `test_type` switches a discarded instance | `test_type(True)` then a strict-typed call | the switch persists and checks run | high; not executed | StrictType.TestSwitchLostAsWritten | StrictType.TestSwitch |
| sqeezz_modifiers/__init__.py:264 | `None in required_types` raises TypeError when the spec is a single class | `strict_type(a=int)` with `a=1` | a single class is checked directly | high; not executed | StrictType.SingleClassRaisesAsWritten | StrictType.CheckTypeMeaning |
| sqeezz_modifiers/__init__.py:268-271 | `required_type[0]` on an empty list raises IndexError when the spec is only None | `strict_type(a=(None,))` with `a=None` | None alone is accepted | medium; not executed | StrictType.OnlyNoneRaisesAsWritten | StrictType.CheckTypeMeaning |
| src/sqeezz/__init__.py:6-16 | `__Bindings.__init__` assigns through its own `__setattr__`, which reads the unset slot; `__getattr__` reads it again, recursing until RuntimeError | any injected call without the injection-point keyword | the bundle is added | high; not executed | SrcInject.WrapRaisesAsWritten | SrcInject.Wrapped |
| src/sqeezz/modifiers.py:81-104 | `__init__` assigns through `__setattr__`, whose `__create_instance` reads the unset instance slot; `__getattr__` calls `__create_instance` again, recursing until RuntimeError | `Singleton(cls)` | store the call; build on first use | high; not executed | Singletons.SrcConstructRaisesAsWritten | Singletons.SrcSingleton.CreateInstance |
| src/sqeezz/modifiers.py:83 | `Call(cls, args, kwargs)` binds the argument tuple and keyword dictionary as two positionals of the stored call, which stores no keywords | `Singleton(C)` then a call | build `C()` from the construction arguments, i.e. `Call(cls, *args, **kwargs)` | high; not executed | Singletons.PackedArgumentsAsWritten | Singletons.SrcSingleton.Built |
