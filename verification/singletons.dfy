/** The two singleton wrappers: the lazy `Singleton` of sqeezz/singleton.py,
    which rebuilds whenever its instance is falsy, and the `Singleton` of
    src/sqeezz/modifiers.py, which builds once from a stored `Call`. */
module Singletons {
  import opened Common
  import opened CallMerge

  /** The arguments of one call. */
  datatype Arguments = Arguments(args: seq<Value>, kwargs: map<string, Value>)

  /** The instance after one `__call__` of the lazy singleton: a falsy
      instance (the empty start included) is replaced by a new one built
      from this call's arguments; a truthy one is kept. */
  function LazyStep(instance: Value, cls: Arguments -> Value, call: Arguments): (r: Value)
    ensures Truthy(instance) ==> r == instance
    ensures !Truthy(instance) ==> r == cls(call)
  {
    if !Truthy(instance) then cls(call) else instance
  }

  /** The instance after a series of calls, starting empty. */
  function LazyAfter(cls: Arguments -> Value, calls: seq<Arguments>): Value {
    if calls == [] then NoneValue
    else LazyStep(LazyAfter(cls, calls[..|calls| - 1]), cls, calls[|calls| - 1])
  }

  /** Once the first call has built a truthy instance, every later call
      returns that same instance, whatever its arguments. */
  lemma {:induction false} FirstTruthyInstanceKept(cls: Arguments -> Value, calls: seq<Arguments>)
    requires |calls| > 0 && Truthy(cls(calls[0]))
    ensures LazyAfter(cls, calls) == cls(calls[0])
    decreases |calls|
  {
    if |calls| > 1 {
      var prefix := calls[..|calls| - 1];
      assert prefix[0] == calls[0];
      FirstTruthyInstanceKept(cls, prefix);
    } else {
      assert LazyAfter(cls, calls[..0]) == NoneValue;
    }
  }

  /** A class whose instances are all falsy is constructed again on every
      call, with that call's arguments. */
  lemma {:induction false} FalsyInstanceRebuilt(cls: Arguments -> Value, calls: seq<Arguments>)
    requires |calls| > 0
    requires forall a :: !Truthy(cls(a))
    ensures LazyAfter(cls, calls) == cls(calls[|calls| - 1])
  {
    if |calls| > 1 {
      FalsyInstanceRebuilt(cls, calls[..|calls| - 1]);
    }
  }

  /** `Singleton` of sqeezz/singleton.py over the wrapped class: `cls`
      constructs an instance from call arguments, and `classAttrs` are the
      attributes the class itself has. */
  class LazySingleton {
    const cls: Arguments -> Value
    const classAttrs: map<string, Value>
    var instance: Value

    /** Holds the class; no instance yet. */
    constructor(cls: Arguments -> Value, classAttrs: map<string, Value>)
      ensures this.cls == cls && this.classAttrs == classAttrs && instance == NoneValue
    {
      this.cls := cls;
      this.classAttrs := classAttrs;
      instance := NoneValue;
    }

    /** `__call__`: builds when the stored instance is falsy, then returns it. */
    method Call(call: Arguments) returns (r: Value)
      modifies this
      ensures instance == LazyStep(old(instance), cls, call)
      ensures r == instance
    {
      if !Truthy(instance) {
        instance := cls(call);
      }
      r := instance;
    }

    /** `__getattr__`, reached for any name the wrapper itself lacks: the
        attribute is read from the wrapped class, never from the instance,
        and a name the class lacks raises AttributeError. */
    function GetAttr(item: string): (r: Result<Value>)
      ensures item in classAttrs ==> r == Ok(classAttrs[item])
      ensures item !in classAttrs ==> r == Err(AttributeError(item))
    {
      if item in classAttrs then Ok(classAttrs[item]) else Err(AttributeError(item))
    }
  }

  /** Attribute access on the lazy singleton ignores the instance: it reads
      the same before any call and after calls that built or kept one. */
  method AttributesComeFromClass(cls: Arguments -> Value, classAttrs: map<string, Value>,
                                 first: Arguments, second: Arguments, item: string)
    returns (before: Result<Value>, after: Result<Value>)
    ensures before == after
    ensures item in classAttrs ==> after == Ok(classAttrs[item])
    ensures item !in classAttrs ==> after == Err(AttributeError(item))
  {
    var s := new LazySingleton(cls, classAttrs);
    before := s.GetAttr(item);
    var _ := s.Call(first);
    var _ := s.Call(second);
    after := s.GetAttr(item);
  }

  /** The instance after `__create_instance`: built from the stored call
      only while it is None; any other instance, falsy or not, is kept. */
  function SrcCreated(instance: Value, built: Value): (r: Value)
    ensures instance != NoneValue ==> r == instance
    ensures instance == NoneValue ==> r == built
  {
    if instance == NoneValue then built else instance
  }

  /** A second creation changes nothing once the first has stored a value. */
  lemma SrcCreationOnce(instance: Value, first: Value, second: Value)
    requires first != NoneValue
    ensures SrcCreated(SrcCreated(instance, first), second) == SrcCreated(instance, first)
  {
  }

  /** The two singletons part on a falsy instance such as `0`: the lazy one
      builds again, the src one keeps it. */
  lemma FalsyInstanceTreatedDifferently(zero: Value, built: Value, cls: Arguments -> Value, call: Arguments)
    requires zero == Int(0) && cls(call) == built
    ensures LazyStep(zero, cls, call) == built
    ensures SrcCreated(zero, built) == zero
  {
  }

  /** `Singleton` of src/sqeezz/modifiers.py: the wrapped class is held as a
      `Call` with the construction arguments. */
  class SrcSingleton {
    const stored: SrcCall
    const cls: Arguments -> Value
    var instance: Value

    /** `__init__` as intended: stores the call with the construction
        arguments spread into it, no instance yet. */
    constructor(cls: Arguments -> Value, args: seq<Value>, kwargs: map<string, Value>)
      ensures this.cls == cls && stored == SrcCall(args, kwargs)
      ensures instance == NoneValue
    {
      this.cls := cls;
      stored := SrcCall(args, kwargs);
      instance := NoneValue;
    }

    /** The instance the stored `Call` builds when called with nothing. */
    function Built(): (r: Value)
      ensures r == cls(Arguments(stored.args, stored.kwargs))
    {
      var (args, kwargs) := SrcArguments(stored, [], map[]);
      assert args == stored.args && kwargs == stored.kwargs;
      cls(Arguments(args, kwargs))
    }

    /** `__create_instance`. */
    method CreateInstance()
      modifies this
      ensures instance == SrcCreated(old(instance), Built())
    {
      if instance == NoneValue {
        var args, kwargs := InvokeSrc(stored, [], map[]);
        instance := cls(Arguments(args, kwargs));
      }
    }

    /** `instance()`: the stored instance, None before the first creation. */
    function Instance(): Value
      reads this
    {
      instance
    }

    /** `__call__`: creates the instance if needed and calls it; `invoke`
        stands for calling an object. */
    method Call(call: Arguments, invoke: (Value, Arguments) -> Value) returns (r: Value)
      modifies this
      ensures instance == SrcCreated(old(instance), Built())
      ensures r == invoke(instance, call)
    {
      CreateInstance();
      r := invoke(instance, call);
    }
  }

  /** `instance()` reads None until the first use creates the instance from
      the stored call, and the created instance afterwards. */
  method InstanceAfterFirstUse(cls: Arguments -> Value, args: seq<Value>, kwargs: map<string, Value>,
                               call: Arguments, invoke: (Value, Arguments) -> Value)
    returns (before: Value, after: Value)
    ensures before == NoneValue
    ensures after == cls(Arguments(args, kwargs))
  {
    var s := new SrcSingleton(cls, args, kwargs);
    before := s.Instance();
    var _ := s.Call(call, invoke);
    after := s.Instance();
  }

  /** The call the src singleton stores as written: `Call(cls, args,
      kwargs)` binds to `Call.__init__(self, call, *args, **kwargs)`, so the
      argument tuple and the keyword dictionary become its two positionals
      and it stores no keywords. */
  function StoredAsWritten(args: seq<Value>, kwargs: map<string, Value>): SrcCall {
    SrcCall([TupleOf(args), DictOf(kwargs)], map[])
  }

  /** As written, the stored call always hands the class exactly two
      positionals, the tuple and the dictionary, and no keywords; so unless
      the construction had two positionals and no keywords, the class is
      built from other arguments than the intended `cls(*args, **kwargs)`.
      `Singleton(C)` builds `C((), {})` where `C()` is meant. */
  lemma PackedArgumentsAsWritten(args: seq<Value>, kwargs: map<string, Value>)
    ensures SrcArguments(StoredAsWritten(args, kwargs), [], map[]) == ([TupleOf(args), DictOf(kwargs)], map[])
    ensures |args| != 2 || kwargs != map[] ==>
              SrcArguments(StoredAsWritten(args, kwargs), [], map[]) != SrcArguments(SrcCall(args, kwargs), [], map[])
    ensures SrcArguments(StoredAsWritten([], map[]), [], map[]) == ([TupleOf([]), DictOf(map[])], map[])
    ensures SrcArguments(SrcCall([], map[]), [], map[]) == ([], map[])
  {
    var packed := SrcArguments(StoredAsWritten(args, kwargs), [], map[]);
    assert packed.0 == [TupleOf(args), DictOf(kwargs)];
    assert packed.1 == map[];
    var meant := SrcArguments(SrcCall(args, kwargs), [], map[]);
    assert meant.0 == args && meant.1 == kwargs;
    var bare := SrcArguments(StoredAsWritten([], map[]), [], map[]);
    assert bare.0 == [TupleOf([]), DictOf(map[])];
    assert bare.1 == map[];
  }

  /** Constructing the src singleton as written: the first assignment in
      `__init__` goes through the overridden `__setattr__`, whose
      `__create_instance` reads the unset private instance slot, which
      falls back to `__getattr__`, which calls `__create_instance` again.
      `limit` is the interpreter's recursion limit. */
  function SrcConstructAsWritten(args: seq<Value>, kwargs: map<string, Value>, limit: nat)
    : (r: Result<(SrcCall, Value)>)
    ensures r.Ok? ==> r.value == (StoredAsWritten(args, kwargs), NoneValue)
  {
    match ReadThroughGetAttr(false, limit)
    case Pass => Ok((StoredAsWritten(args, kwargs), NoneValue))
    case Fail(e) => Err(e)
  }

  /** As written, every construction raises RuntimeError. */
  lemma SrcConstructRaisesAsWritten(args: seq<Value>, kwargs: map<string, Value>, limit: nat)
    ensures SrcConstructAsWritten(args, kwargs, limit) == Err(RecursionDepthExceeded)
  {
    UnsetAttributeExhaustsStack(limit);
  }
}
