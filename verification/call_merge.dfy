/** The `Call` wrappers: the four-level argument merge of
    sqeezz_modifiers/__init__.py and sqeezz/modifiers.py, and the
    append-and-override variant of src/sqeezz/modifiers.py. */
module CallMerge {
  import opened Common
  import opened FuncUtils

  /** A `Call` object: the wrapped callable's signature with the positionals
      and keywords stored at construction. */
  datatype Call = Call(sig: Signature, args: seq<Value>, kwargs: map<string, Value>)

  /** The value a name receives, highest precedence first: call positional,
      call keyword, stored positional, stored keyword. */
  function Pick(c: Call, args: seq<Value>, kwargs: map<string, Value>, k: string): Option<Value> {
    var passed := CreateArgsDict(c.sig.params, args);
    var stored := CreateArgsDict(c.sig.params, c.args);
    if k in passed then Some(passed[k])
    else if k in kwargs then Some(kwargs[k])
    else if k in stored then Some(stored[k])
    else if k in c.kwargs then Some(c.kwargs[k])
    else None
  }

  /** The copy of the stored keywords after the three `update`s. */
  function Layered(c: Call, args: seq<Value>, kwargs: map<string, Value>): map<string, Value> {
    c.kwargs + CreateArgsDict(c.sig.params, c.args) + kwargs + CreateArgsDict(c.sig.params, args)
  }

  /** Each later `update` wins, which yields the documented precedence. */
  lemma LayeredIsPick(c: Call, args: seq<Value>, kwargs: map<string, Value>)
    ensures forall k :: k in Layered(c, args, kwargs) <==> Pick(c, args, kwargs, k).Some?
    ensures forall k :: k in Layered(c, args, kwargs) ==> Layered(c, args, kwargs)[k] == Pick(c, args, kwargs, k).value
  {
  }

  /** The keywords `Call.__call__` passes to the callable: the merge by
      precedence, with undeclared names dropped unless the callable takes
      `**kwargs`.  No name is dropped as positionally filled, since the
      removal is given no positionals. */
  function Merged(c: Call, args: seq<Value>, kwargs: map<string, Value>): (r: map<string, Value>)
    ensures forall k :: k in r <==> Pick(c, args, kwargs, k).Some? && (c.sig.acceptsKwargs || k in c.sig.params)
    ensures forall k :: k in r ==> r[k] == Pick(c, args, kwargs, k).value
  {
    LayeredIsPick(c, args, kwargs);
    InvalidKwargsRemovedNoPositionals(c.sig, Layered(c, args, kwargs));
    InvalidKwargsRemoved(c.sig, [], Layered(c, args, kwargs))
  }

  /** `Call.__call__`: the successive `update`s of a copy of the stored
      keywords, then `remove_invalid_kwargs` with no positionals. */
  method Invoke(c: Call, args: seq<Value>, kwargs: map<string, Value>) returns (r: map<string, Value>)
    ensures r == Merged(c, args, kwargs)
  {
    var mappedArgs := CreateArgsDict(c.sig.params, c.args);
    var mappedPassedArgs := CreateArgsDict(c.sig.params, args);
    var copyKwargs := c.kwargs;
    copyKwargs := copyKwargs + mappedArgs;
    copyKwargs := copyKwargs + kwargs;
    copyKwargs := copyKwargs + mappedPassedArgs;
    r := RemoveInvalidKwargs(c.sig, [], copyKwargs);
  }

  /** The stored call of the unit tests: `Call(f, 1, arg2=2)` for `def f(arg1, arg2)`. */
  function TestCall(): Call {
    Call(Signature(["arg1", "arg2"], false), [Int(1)], map["arg2" := Int(2)])
  }

  /** Call positionals that cover every parameter decide every argument of
      a callable without `**kwargs`; stored arguments and keywords are all
      overridden or dropped. */
  lemma FullPositionalsDecide(c: Call, args: seq<Value>, kwargs: map<string, Value>)
    requires |args| >= |c.sig.params| && !c.sig.acceptsKwargs
    ensures Merged(c, args, kwargs) == CreateArgsDict(c.sig.params, args)
  {
    var m := Merged(c, args, kwargs);
    var passed := CreateArgsDict(c.sig.params, args);
    FullPositionalsKeys(c, args, kwargs);
    assert forall k :: k in passed ==> Pick(c, args, kwargs, k) == Some(passed[k]);
  }

  lemma FullPositionalsKeys(c: Call, args: seq<Value>, kwargs: map<string, Value>)
    requires |args| >= |c.sig.params| && !c.sig.acceptsKwargs
    ensures Merged(c, args, kwargs).Keys == CreateArgsDict(c.sig.params, args).Keys
  {
    var passed := CreateArgsDict(c.sig.params, args);
    assert c.sig.params[..Min(|c.sig.params|, |args|)] == c.sig.params;
    assert forall k :: k in passed <==> k in c.sig.params;
    var m := Merged(c, args, kwargs);
    forall k | k in passed
      ensures k in m
    {
      assert Pick(c, args, kwargs, k).Some?;
    }
    assert m.Keys == passed.Keys;
  }

  /** The unit test with call arguments: `(3, 4)` reach the callable. */
  lemma {:induction false} CallExampleWithArguments()
    ensures Merged(TestCall(), [Int(3), Int(4)], map[]) == map["arg1" := Int(3), "arg2" := Int(4)]
  {
    FullPositionalsDecide(TestCall(), [Int(3), Int(4)], map[]);
    CreateArgsDictPair("arg1", "arg2", Int(3), Int(4));
  }

  /** The unit test without call arguments: the stored `(1, 2)` reach the callable. */
  lemma {:induction false} CallExampleBare()
    ensures Merged(TestCall(), [], map[]) == map["arg1" := Int(1), "arg2" := Int(2)]
  {
    var c := TestCall();
    var stored := CreateArgsDict(c.sig.params, c.args);
    assert stored == map["arg1" := Int(1)] by {
      assert c.sig.params[..Min(2, 1)] == ["arg1"];
      CreateArgsDictDistinct(c.sig.params, c.args, 0);
    }
    assert CreateArgsDict<Value>(c.sig.params, []) == map[];
    assert Pick(c, [], map[], "arg1") == Some(Int(1));
    assert Pick(c, [], map[], "arg2") == Some(Int(2));
    var m := Merged(c, [], map[]);
    assert m.Keys == {"arg1", "arg2"};
  }

  /** The attributes of `FuncTools` in sqeezz/tools.py: the static methods
      defined at sqeezz/tools.py:7 (`remove_dup_kwargs`), :25
      (`create_args_dict`) and :31 (`spec`); the class defines nothing else. */
  const FuncToolsMembers: set<string> := {"remove_dup_kwargs", "create_args_dict", "spec"}

  /** `Call.__call__` of sqeezz/modifiers.py as written: its `Call` extends
      `FuncTools`, so `self.remove_invalid_kwargs` is looked up there. */
  function InvokeToolsAsWritten(c: Call, args: seq<Value>, kwargs: map<string, Value>): (r: Result<map<string, Value>>)
    ensures r.Ok? ==> r.value == Merged(c, args, kwargs)
  {
    if "remove_invalid_kwargs" in FuncToolsMembers then Ok(Merged(c, args, kwargs))
    else Err(AttributeError("remove_invalid_kwargs"))
  }

  /** `remove_invalid_kwargs` is not among them. */
  lemma RemoveInvalidKwargsNotInFuncTools()
    ensures "remove_invalid_kwargs" !in FuncToolsMembers
  {
    assert |"remove_invalid_kwargs"| == 21;
  }

  /** Every call raises AttributeError as written, the unit test included,
      where the intended merge yields `(3, 4)`. */
  lemma CallRaisesAsWritten(c: Call, args: seq<Value>, kwargs: map<string, Value>)
    ensures InvokeToolsAsWritten(c, args, kwargs) == Err(AttributeError("remove_invalid_kwargs"))
    ensures Merged(TestCall(), [Int(3), Int(4)], map[]) == map["arg1" := Int(3), "arg2" := Int(4)]
  {
    RemoveInvalidKwargsNotInFuncTools();
    CallExampleWithArguments();
  }

  /** A `Call` object of src/sqeezz/modifiers.py. */
  datatype SrcCall = SrcCall(args: seq<Value>, kwargs: map<string, Value>)

  /** The arguments the src `Call.__call__` passes on: the call's positionals
      followed by the stored ones, and the call's keywords overridden by the
      stored ones; nothing is filtered. */
  function SrcArguments(c: SrcCall, args: seq<Value>, kwargs: map<string, Value>)
    : (r: (seq<Value>, map<string, Value>))
    ensures |r.0| == |args| + |c.args|
    ensures forall i :: 0 <= i < |args| ==> r.0[i] == args[i]
    ensures forall i :: 0 <= i < |c.args| ==> r.0[|args| + i] == c.args[i]
    ensures forall k :: k in r.1 <==> k in kwargs || k in c.kwargs
    ensures forall k :: k in c.kwargs ==> r.1[k] == c.kwargs[k]
    ensures forall k :: k in kwargs && k !in c.kwargs ==> r.1[k] == kwargs[k]
  {
    (args + c.args, kwargs + c.kwargs)
  }

  /** The src `Call.__call__`: `args += self.args`, `kwargs.update(self.kwargs)`. */
  method InvokeSrc(c: SrcCall, args: seq<Value>, kwargs: map<string, Value>)
    returns (posOut: seq<Value>, kwOut: map<string, Value>)
    ensures (posOut, kwOut) == SrcArguments(c, args, kwargs)
  {
    posOut := args;
    posOut := posOut + c.args;
    kwOut := kwargs;
    kwOut := kwOut + c.kwargs;
  }

  /** The two variants rank keywords oppositely: for a declared name given
      both when calling and when constructing, the four-level merge passes
      the call's value, the src variant the stored one. */
  lemma KeywordPrecedenceOpposes(sig: Signature, k: string, callValue: Value, storedValue: Value)
    requires k in sig.params
    ensures k in Merged(Call(sig, [], map[k := storedValue]), [], map[k := callValue])
    ensures Merged(Call(sig, [], map[k := storedValue]), [], map[k := callValue])[k] == callValue
    ensures SrcArguments(SrcCall([], map[k := storedValue]), [], map[k := callValue]).1[k] == storedValue
  {
    assert CreateArgsDict<Value>(sig.params, []) == map[];
  }
}
