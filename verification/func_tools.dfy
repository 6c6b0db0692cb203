/** The argument helpers of sqeezz/tools.py (`FuncTools`).  Its
    `create_args_dict` is the same zip as `FuncUtils.CreateArgsDict`. */
module FuncTools {
  import opened Common
  import opened FuncUtils

  /** The effect of `remove_dup_kwargs`: only the keywords that a positional
      already fills are dropped; there is no signature filter. */
  function DupKwargsRemoved(params: seq<string>, args: seq<Value>, kwargs: map<string, Value>): map<string, Value>
  {
    if |kwargs| == 0 then kwargs
    else kwargs - CreateArgsDict(params, args).Keys
  }

  /** `remove_dup_kwargs(func, args, kwargs)`: returns at once for an empty
      dictionary, otherwise deletes each positionally filled name in a loop.
      The result is the dictionary the caller's `kwargs` becomes. */
  method RemoveDupKwargs(params: seq<string>, args: seq<Value>, kwargs: map<string, Value>)
    returns (out: map<string, Value>)
    ensures forall k :: k in out <==> k in kwargs && k !in CreateArgsDict(params, args)
    ensures forall k :: k in out ==> out[k] == kwargs[k]
    ensures out == DupKwargsRemoved(params, args, kwargs)
  {
    out := kwargs;
    if |kwargs| == 0 {
      assert forall k :: k !in kwargs;
      return;
    }
    var filled := CreateArgsDict(params, args).Keys;
    var todo := filled;
    while todo != {}
      invariant todo <= filled
      invariant forall k :: k in out <==> k in kwargs && (k !in filled || k in todo)
      invariant forall k :: k in out ==> out[k] == kwargs[k]
      decreases todo
    {
      var key :| key in todo;
      if key in out {
        out := out - {key};
      }
      todo := todo - {key};
    }
  }

  /** For a callable that takes `**kwargs`, `remove_invalid_kwargs` of
      sqeezz/utils.py and `remove_dup_kwargs` agree; without `**kwargs` the
      former additionally drops undeclared names. */
  lemma DupRemovalIsInvalidRemovalWithKwargs(sig: Signature, args: seq<Value>, kwargs: map<string, Value>)
    ensures sig.acceptsKwargs ==> InvalidKwargsRemoved(sig, args, kwargs) == DupKwargsRemoved(sig.params, args, kwargs)
    ensures InvalidKwargsRemoved(sig, args, kwargs).Keys <= DupKwargsRemoved(sig.params, args, kwargs).Keys
  {
    if |kwargs| != 0 && sig.acceptsKwargs {
      assert InvalidKwargsRemoved(sig, args, kwargs).Keys == DupKwargsRemoved(sig.params, args, kwargs).Keys;
    }
  }

  /** The unit tests of `remove_dup_kwargs`: positionals `(1, 2)` with
      `{arg1: 3}` leave `{}`; positionals `(1,)` with `{arg2: 2}` keep it. An
      undeclared keyword survives. */
  lemma RemoveDupKwargsExamples()
    ensures DupKwargsRemoved(["arg1", "arg2"], [Int(1), Int(2)], map["arg1" := Int(3)]) == map[]
    ensures DupKwargsRemoved(["arg1", "arg2"], [Int(1)], map["arg2" := Int(2)]) == map["arg2" := Int(2)]
    ensures DupKwargsRemoved(["arg1", "arg2"], [Int(1), Int(2)], map["c" := Int(3)]) == map["c" := Int(3)]
  {
    CreateArgsDictDistinct(["arg1", "arg2"], [Int(1), Int(2)], 0);
    assert ["arg1", "arg2"][..Min(2, 1)] == ["arg1"];
    assert ["arg1", "arg2"][..Min(2, 2)] == ["arg1", "arg2"];
  }

  /** The unit test of `FuncTools.create_args_dict`: `(1, 2)` against
      `def f(arg1, arg2)` gives `{arg1: 1, arg2: 2}`. */
  lemma CreateArgsDictToolsExample()
    ensures CreateArgsDict(["arg1", "arg2"], [Int(1), Int(2)]) == map["arg1" := Int(1), "arg2" := Int(2)]
    ensures CreateArgsDict(["arg1", "arg2"], [Int(1), Int(2), Int(3)]) == map["arg1" := Int(1), "arg2" := Int(2)]
  {
    CreateArgsDictExample();
    var r := CreateArgsDict(["arg1", "arg2"], [Int(1), Int(2), Int(3)]);
    CreateArgsDictDistinct(["arg1", "arg2"], [Int(1), Int(2), Int(3)], 0);
    CreateArgsDictDistinct(["arg1", "arg2"], [Int(1), Int(2), Int(3)], 1);
    assert ["arg1", "arg2"][..Min(2, 3)] == ["arg1", "arg2"];
    assert r.Keys == {"arg1", "arg2"};
  }
}
