/** The strict-type decorators: `_strict_type` of sqeezz_modifiers/__init__.py
    (with None allowed through a type tuple, behind a test switch) and `_type`
    of sqeezz/modifiers.py (plain `isinstance`).  Classes are abstract; the
    subclass test behind `isinstance` is the parameter `isA`. */
module StrictType {
  import opened Common
  import opened FuncUtils

  datatype PyType = PyType(name: string)

  /** An element of a type tuple: a class, or None. */
  datatype TypeElem = NoneElem | Cls(t: PyType)

  /** The second argument of `isinstance`: one element or a tuple. */
  datatype TypeSpec = Single(e: TypeElem) | Tuple(elems: seq<TypeElem>)

  function Elems(spec: TypeSpec): seq<TypeElem> {
    match spec
    case Single(e) => [e]
    case Tuple(es) => es
  }

  predicate NoneFree(es: seq<TypeElem>) {
    forall i :: 0 <= i < |es| ==> es[i].Cls?
  }

  /** The scan meets None at index `i` before any class `v` belongs to. */
  predicate NoneReachedFirst(v: Value, es: seq<TypeElem>, isA: (Value, PyType) -> bool, i: int) {
    0 <= i < |es| && es[i] == NoneElem && forall j :: 0 <= j < i ==> es[j].Cls? && !isA(v, es[j].t)
  }

  /** The scan meets a class `v` belongs to at index `i` before any None. */
  predicate ClassReachedFirst(v: Value, es: seq<TypeElem>, isA: (Value, PyType) -> bool, i: int) {
    0 <= i < |es| && es[i].Cls? && isA(v, es[i].t) && forall j :: 0 <= j < i ==> es[j].Cls?
  }

  /** `isinstance(v, (t1, t2, ...))`: the elements are tried left to right;
      the first class `v` belongs to gives True, and reaching None first
      raises TypeError. */
  function ScanInstance(v: Value, es: seq<TypeElem>, isA: (Value, PyType) -> bool): (r: Result<bool>)
    ensures NoneFree(es) ==> r == Ok(exists i :: 0 <= i < |es| && isA(v, es[i].t))
    ensures r.Err? <==> exists i :: NoneReachedFirst(v, es, isA, i)
    ensures r.Err? ==> r.error == TypeError(NotAClass)
    ensures r == Ok(true) <==> exists i :: ClassReachedFirst(v, es, isA, i)
    decreases |es|
  {
    if es == [] then Ok(false)
    else
      var rest := ScanInstance(v, es[1..], isA);
      assert forall i :: 0 < i < |es| ==> es[i] == es[1..][i - 1];
      match es[0]
      case NoneElem =>
        assert NoneReachedFirst(v, es, isA, 0);
        assert forall i :: !ClassReachedFirst(v, es, isA, i);
        Err(TypeError(NotAClass))
      case Cls(t) =>
        if isA(v, t) then
          assert ClassReachedFirst(v, es, isA, 0);
          assert forall i :: !NoneReachedFirst(v, es, isA, i);
          Ok(true)
        else
          ScanShift(v, es, isA);
          rest
  }

  /** Past a first class that `v` does not belong to, the scan of the whole
      list meets what the scan of the rest meets, one index later. */
  lemma ScanShift(v: Value, es: seq<TypeElem>, isA: (Value, PyType) -> bool)
    requires |es| > 0 && es[0].Cls? && !isA(v, es[0].t)
    ensures (exists i :: NoneReachedFirst(v, es, isA, i)) <==> exists i :: NoneReachedFirst(v, es[1..], isA, i)
    ensures (exists i :: ClassReachedFirst(v, es, isA, i)) <==> exists i :: ClassReachedFirst(v, es[1..], isA, i)
  {
    var tail := es[1..];
    if i :| NoneReachedFirst(v, es, isA, i) {
      assert NoneReachedFirst(v, tail, isA, i - 1);
    }
    if i :| NoneReachedFirst(v, tail, isA, i) {
      assert NoneReachedFirst(v, es, isA, i + 1);
    }
    if i :| ClassReachedFirst(v, es, isA, i) {
      assert ClassReachedFirst(v, tail, isA, i - 1);
    }
    if i :| ClassReachedFirst(v, tail, isA, i) {
      assert ClassReachedFirst(v, es, isA, i + 1);
    }
  }

  /** `isinstance(v, spec)`; `isinstance(v, None)` raises TypeError, and so
      does a tuple whose scan reaches None first. */
  function IsInstance(v: Value, spec: TypeSpec, isA: (Value, PyType) -> bool): (r: Result<bool>)
    ensures NoneFree(Elems(spec)) ==> r == Ok(exists i :: 0 <= i < |Elems(spec)| && isA(v, Elems(spec)[i].t))
    ensures r.Err? <==> exists i :: NoneReachedFirst(v, Elems(spec), isA, i)
    ensures r.Err? ==> r.error == TypeError(NotAClass)
    ensures spec == Single(NoneElem) ==> r.Err?
  {
    match spec
    case Single(NoneElem) =>
      assert NoneReachedFirst(v, Elems(spec), isA, 0);
      Err(TypeError(NotAClass))
    case Single(Cls(t)) =>
      assert Elems(spec)[0].t == t;
      assert forall i :: !NoneReachedFirst(v, Elems(spec), isA, i);
      Ok(isA(v, t))
    case Tuple(es) => ScanInstance(v, es, isA)
  }

  /** True when the spec lets None through: it names None. */
  predicate HasNone(spec: TypeSpec) {
    NoneElem in Elems(spec)
  }

  /** The spec made of the given elements, the way `_extract_none` rebuilds
      it: a tuple for more than one element, the element itself for one.
      No element at all gives the empty tuple, which nothing is an instance
      of. */
  function Rebuild(es: seq<TypeElem>): (r: TypeSpec)
    ensures Elems(r) == es
  {
    if |es| == 1 then Single(es[0]) else Tuple(es)
  }

  /** `_extract_none` as intended: whether None is allowed, and the spec
      with (the first) None taken out. */
  function ExtractNone(spec: TypeSpec): (r: (bool, TypeSpec))
    ensures r.0 <==> HasNone(spec)
    ensures !r.0 ==> r.1 == spec
    ensures r.0 ==> Elems(r.1) == RemoveFirst(Elems(spec), NoneElem)
  {
    if HasNone(spec) then (true, Rebuild(RemoveFirst(Elems(spec), NoneElem)))
    else (false, spec)
  }

  /** `_extract_none` as written: `None in required_types` raises TypeError
      when the spec is a single class rather than a tuple, and the rebuilt
      spec is `required_type[0]`, an IndexError, when nothing but None was
      given. */
  function ExtractNoneAsWritten(spec: TypeSpec): (r: Result<(bool, TypeSpec)>)
    ensures r.Err? <==> spec.Single? || spec == Tuple([NoneElem])
    ensures r.Ok? ==> r.value == ExtractNone(spec)
  {
    match spec
    case Single(_) => Err(TypeError(NotIterable))
    case Tuple(es) =>
      if NoneElem in es then
        var rest := RemoveFirst(es, NoneElem);
        if |rest| > 1 then Ok((true, Tuple(rest)))
        else if |rest| == 1 then Ok((true, Single(rest[0])))
        else
          assert es == [NoneElem];
          Err(IndexError)
      else Ok((false, spec))
  }

  /** What a spec is meant to accept: a value of one of its classes, or None
      when it names None. */
  predicate Accepts(v: Value, spec: TypeSpec, isA: (Value, PyType) -> bool) {
    (v == NoneValue && HasNone(spec)) || SomeClassHolds(v, Elems(spec), isA)
  }

  /** `_check_type(name, v, spec)` with the intended `_extract_none`. */
  function CheckType(name: string, v: Value, spec: TypeSpec, isA: (Value, PyType) -> bool): (r: Outcome)
    ensures r.Fail? ==> r.error == TypeError(Mismatch(name)) || r.error == TypeError(NotAClass)
    ensures r.Fail? && r.error == TypeError(NotAClass) ==> !NoneFree(RemoveFirst(Elems(spec), NoneElem))
  {
    var (allowNone, required) := ExtractNone(spec);
    assert Elems(required) == RemoveFirst(Elems(spec), NoneElem);
    match IsInstance(v, required, isA)
    case Err(e) => Fail(e)
    case Ok(true) => Pass
    case Ok(false) => if allowNone && v == NoneValue then Pass else Fail(TypeError(Mismatch(name)))
  }

  /** `_check_type` as written. */
  function CheckTypeAsWritten(name: string, v: Value, spec: TypeSpec, isA: (Value, PyType) -> bool): (r: Outcome)
    ensures ExtractNoneAsWritten(spec).Ok? ==> r == CheckType(name, v, spec, isA)
    ensures ExtractNoneAsWritten(spec).Err? ==> r == Fail(ExtractNoneAsWritten(spec).error)
  {
    match ExtractNoneAsWritten(spec)
    case Err(e) => Fail(e)
    case Ok((allowNone, required)) =>
      match IsInstance(v, required, isA)
      case Err(e) => Fail(e)
      case Ok(true) => Pass
      case Ok(false) => if allowNone && v == NoneValue then Pass else Fail(TypeError(Mismatch(name)))
  }

  /** Some class of the list holds the value. */
  predicate SomeClassHolds(v: Value, es: seq<TypeElem>, isA: (Value, PyType) -> bool) {
    exists i :: 0 <= i < |es| && es[i].Cls? && isA(v, es[i].t)
  }

  /** Taking None out of a type list keeps the classes that hold a value. */
  lemma RemovingNoneKeepsClasses(v: Value, es: seq<TypeElem>, isA: (Value, PyType) -> bool)
    ensures SomeClassHolds(v, RemoveFirst(es, NoneElem), isA) <==> SomeClassHolds(v, es, isA)
  {
    if NoneElem in es {
      var k := IndexOf(es, NoneElem);
      var rs := RemoveFirst(es, NoneElem);
      if SomeClassHolds(v, es, isA) {
        var i :| 0 <= i < |es| && es[i].Cls? && isA(v, es[i].t);
        RemoveFirstKeeps(es, NoneElem, i);
        var j := if i < k then i else i - 1;
        assert rs[j] == es[i];
      }
      if SomeClassHolds(v, rs, isA) {
        var j :| 0 <= j < |rs| && rs[j].Cls? && isA(v, rs[j].t);
        RemoveFirstAt(es, NoneElem, j);
        var i := if j < k then j else j + 1;
        assert es[i] == rs[j];
      }
    }
  }

  /** With at most one None in the spec, the check passes exactly for the
      values the spec accepts and otherwise raises the mismatch TypeError
      naming the argument. */
  lemma CheckTypeMeaning(name: string, v: Value, spec: TypeSpec, isA: (Value, PyType) -> bool)
    requires NoneFree(RemoveFirst(Elems(spec), NoneElem))
    ensures CheckType(name, v, spec, isA) ==
            if Accepts(v, spec, isA) then Pass else Fail(TypeError(Mismatch(name)))
  {
    var required := ExtractNone(spec).1;
    var rs := Elems(required);
    if HasNone(spec) {
      assert NoneFree(rs);
      RemovingNoneKeepsClasses(v, Elems(spec), isA);
      IsInstanceNoneFree(v, required, isA);
    } else {
      assert RemoveFirst(Elems(spec), NoneElem) == Elems(spec);
      IsInstanceNoneFree(v, spec, isA);
    }
  }

  /** On a None-free spec `isinstance` never raises and answers whether
      some class holds. */
  lemma IsInstanceNoneFree(v: Value, spec: TypeSpec, isA: (Value, PyType) -> bool)
    requires NoneFree(Elems(spec))
    ensures IsInstance(v, spec, isA) == Ok(SomeClassHolds(v, Elems(spec), isA))
  {
    var es := Elems(spec);
    assert (exists i :: 0 <= i < |es| && isA(v, es[i].t)) == SomeClassHolds(v, es, isA);
  }

  /** A spec that is a single class, the usual way of declaring a type,
      makes the check raise TypeError as written, whatever the value; the
      intended check passes a value of that class. */
  lemma SingleClassRaisesAsWritten(name: string, v: Value, t: PyType, isA: (Value, PyType) -> bool)
    requires isA(v, t)
    ensures CheckTypeAsWritten(name, v, Single(Cls(t)), isA) == Fail(TypeError(NotIterable))
    ensures CheckType(name, v, Single(Cls(t)), isA) == Pass
  {
  }

  /** A spec naming only None, meant to admit None alone, raises IndexError
      as written; the intended extraction leaves the empty tuple, so None
      passes and every other value is a mismatch. */
  lemma OnlyNoneRaisesAsWritten(name: string, v: Value, isA: (Value, PyType) -> bool)
    requires v != NoneValue
    ensures ExtractNoneAsWritten(Tuple([NoneElem])) == Err(IndexError)
    ensures CheckTypeAsWritten(name, NoneValue, Tuple([NoneElem]), isA) == Fail(IndexError)
    ensures CheckType(name, NoneValue, Tuple([NoneElem]), isA) == Pass
    ensures CheckType(name, v, Tuple([NoneElem]), isA) == Fail(TypeError(Mismatch(name)))
  {
    assert RemoveFirst([NoneElem], NoneElem) == [];
  }

  /** `isinstance(kwargs[key], value)` of sqeezz/modifiers.py: no special
      treatment of None. */
  function CheckTypePlain(name: string, v: Value, spec: TypeSpec, isA: (Value, PyType) -> bool): (r: Outcome)
    ensures r.Fail? ==> r.error == TypeError(Mismatch(name)) || r.error == TypeError(NotAClass)
    ensures r.Fail? && r.error == TypeError(NotAClass) ==> HasNone(spec)
    ensures spec == Single(NoneElem) ==> r == Fail(TypeError(NotAClass))
  {
    match IsInstance(v, spec, isA)
    case Err(e) => Fail(e)
    case Ok(true) => Pass
    case Ok(false) => Fail(TypeError(Mismatch(name)))
  }

  /** For a spec made of classes only, the plain check passes exactly for
      the values the spec accepts. */
  lemma CheckTypePlainMeaning(name: string, v: Value, spec: TypeSpec, isA: (Value, PyType) -> bool)
    requires NoneFree(Elems(spec))
    ensures CheckTypePlain(name, v, spec, isA) ==
            if Accepts(v, spec, isA) then Pass else Fail(TypeError(Mismatch(name)))
  {
  }

  /** One of the two checks. */
  function CheckOne(name: string, v: Value, spec: TypeSpec, noneAware: bool, isA: (Value, PyType) -> bool): Outcome {
    if noneAware then CheckType(name, v, spec, isA) else CheckTypePlain(name, v, spec, isA)
  }

  /** The checks made for one declared name: the keyword value first, then
      the positionally mapped value. */
  function KeyOutcome(key: string, spec: TypeSpec, kwargs: map<string, Value>, mapped: map<string, Value>,
                      noneAware: bool, isA: (Value, PyType) -> bool): Outcome
  {
    var first := if key in kwargs then CheckOne(key, kwargs[key], spec, noneAware, isA) else Pass;
    if first.Fail? then first
    else if key in mapped then CheckOne(key, mapped[key], spec, noneAware, isA)
    else Pass
  }

  /** The checking loop over the declared types, in the dictionary's own
      order: it passes when every declared name passes, and otherwise
      raises the failure of one of the failing names. */
  method CheckAll(types: map<string, TypeSpec>, kwargs: map<string, Value>, mapped: map<string, Value>,
                  noneAware: bool, isA: (Value, PyType) -> bool)
    returns (o: Outcome)
    ensures o.Pass? <==> forall key :: key in types ==> KeyOutcome(key, types[key], kwargs, mapped, noneAware, isA).Pass?
    ensures o.Fail? ==> exists key :: key in types && o == KeyOutcome(key, types[key], kwargs, mapped, noneAware, isA)
  {
    var todo := types.Keys;
    while todo != {}
      invariant todo <= types.Keys
      invariant forall key :: key in types && key !in todo ==>
        KeyOutcome(key, types[key], kwargs, mapped, noneAware, isA).Pass?
      decreases todo
    {
      var key :| key in todo;
      var spec := types[key];
      if key in kwargs {
        var c := CheckOne(key, kwargs[key], spec, noneAware, isA);
        if c.Fail? {
          return c;
        }
      }
      if key in mapped {
        var c := CheckOne(key, mapped[key], spec, noneAware, isA);
        if c.Fail? {
          return c;
        }
      }
      todo := todo - {key};
    }
    return Pass;
  }

  /** The `_Type` object a decorator keeps: the positional and keyword type
      specs it was given.  The keyword map is updated in place by every
      checked call and so persists across calls. */
  class TypeDecl {
    var posTypes: seq<TypeSpec>
    var kwTypes: map<string, TypeSpec>

    constructor(posTypes: seq<TypeSpec>, kwTypes: map<string, TypeSpec>)
      ensures this.posTypes == posTypes && this.kwTypes == kwTypes
    {
      this.posTypes := posTypes;
      this.kwTypes := kwTypes;
    }

    /** `_inner` of sqeezz_modifiers/__init__.py.  `test` is the switch set
        by `test_type`; when it is off nothing is checked or stored.  On
        success the callable receives the original arguments. */
    method StrictInner(sig: Signature, args: seq<Value>, kwargs: map<string, Value>, test: bool,
                       isA: (Value, PyType) -> bool)
      returns (r: Result<(seq<Value>, map<string, Value>)>)
      modifies this
      ensures posTypes == old(posTypes)
      ensures kwTypes == if test then old(kwTypes) + CreateArgsDict(sig.params, old(posTypes)) else old(kwTypes)
      ensures r.Ok? ==> r.value == (args, kwargs)
      ensures r.Ok? <==> !test || forall key :: key in kwTypes ==>
        KeyOutcome(key, kwTypes[key], kwargs, CreateArgsDict(sig.params, args), true, isA).Pass?
      ensures r.Err? ==>
        exists key :: key in kwTypes && Fail(r.error) == KeyOutcome(key, kwTypes[key], kwargs, CreateArgsDict(sig.params, args), true, isA)
    {
      if test {
        var mapped := CreateArgsDict(sig.params, args);
        kwTypes := kwTypes + CreateArgsDict(sig.params, posTypes);
        var o := CheckAll(kwTypes, kwargs, mapped, true, isA);
        if o.Fail? {
          return Err(o.error);
        }
      }
      return Ok((args, kwargs));
    }

    /** `_inner` of `_type` in sqeezz/modifiers.py: always checks, with plain
        `isinstance`. */
    method TypeInner(sig: Signature, args: seq<Value>, kwargs: map<string, Value>,
                     isA: (Value, PyType) -> bool)
      returns (r: Result<(seq<Value>, map<string, Value>)>)
      modifies this
      ensures posTypes == old(posTypes)
      ensures kwTypes == old(kwTypes) + CreateArgsDict(sig.params, old(posTypes))
      ensures r.Ok? ==> r.value == (args, kwargs)
      ensures r.Ok? <==> forall key :: key in kwTypes ==>
        KeyOutcome(key, kwTypes[key], kwargs, CreateArgsDict(sig.params, args), false, isA).Pass?
      ensures r.Err? ==>
        exists key :: key in kwTypes && Fail(r.error) == KeyOutcome(key, kwTypes[key], kwargs, CreateArgsDict(sig.params, args), false, isA)
    {
      var mapped := CreateArgsDict(sig.params, args);
      kwTypes := kwTypes + CreateArgsDict(sig.params, posTypes);
      var o := CheckAll(kwTypes, kwargs, mapped, false, isA);
      if o.Fail? {
        return Err(o.error);
      }
      return Ok((args, kwargs));
    }
  }

  /** The `_Instance` object holding the switch. */
  datatype TestInstance = TestInstance(test: bool)

  /** `_TestType().instance`: the class attribute when it is set, otherwise
      the new `_Instance` that `__init__` stores on the new object, whose
      switch has the class default, off. */
  function ReadInstance(classInstance: Option<TestInstance>): (r: TestInstance)
    ensures classInstance.None? ==> !r.test
  {
    if classInstance.None? then TestInstance(false) else classInstance.value
  }

  /** One `test_type(test)` call as written, on the class attribute
      `_TestType.instance`: when that is unset, `__init__` assigns
      `self.instance`, an attribute of the new object, and the switched
      `_Instance` is dropped with it; only a class attribute that is
      already set would be switched. */
  function TestTypeStepAsWritten(classInstance: Option<TestInstance>, test: bool): (r: Option<TestInstance>)
    ensures classInstance.None? ==> r.None?
    ensures classInstance.Some? ==> r == Some(TestInstance(test))
  {
    if classInstance.None? then classInstance else Some(TestInstance(test))
  }

  /** The class attribute after a series of `test_type` calls, as written:
      it starts unset and so stays unset.  Since the as-written step never
      sets it, the result holds by construction; the function records the
      defect rather than proving anything about the calls. */
  function ClassInstanceAsWritten(testTypeCalls: seq<bool>): (r: Option<TestInstance>)
    ensures r.None?
  {
    if testTypeCalls == [] then None
    else
      TestTypeStepAsWritten(ClassInstanceAsWritten(testTypeCalls[..|testTypeCalls| - 1]),
                            testTypeCalls[|testTypeCalls| - 1])
  }

  /** The switch `_inner` reads, as written: always off. */
  function TestSwitchAsWritten(testTypeCalls: seq<bool>): (r: bool)
    ensures !r
  {
    ReadInstance(ClassInstanceAsWritten(testTypeCalls)).test
  }

  /** The class attribute as intended: the one shared `_Instance`, holding
      the value of the last `test_type` call. */
  function ClassInstance(testTypeCalls: seq<bool>): (r: Option<TestInstance>)
    ensures testTypeCalls != [] ==> r == Some(TestInstance(testTypeCalls[|testTypeCalls| - 1]))
  {
    if testTypeCalls == [] then None
    else Some(TestInstance(testTypeCalls[|testTypeCalls| - 1]))
  }

  /** The switch as intended: the value of the last `test_type` call, off
      before any. */
  function TestSwitch(testTypeCalls: seq<bool>): (r: bool)
    ensures r <==> |testTypeCalls| > 0 && testTypeCalls[|testTypeCalls| - 1]
  {
    ReadInstance(ClassInstance(testTypeCalls)).test
  }

  /** After `test_type(True)` the checks stay off as written, and are on as
      intended. */
  lemma TestSwitchLostAsWritten()
    ensures !TestSwitchAsWritten([true])
    ensures TestSwitch([true])
  {
  }
}
