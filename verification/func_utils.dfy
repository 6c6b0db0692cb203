/** The argument mapper of sqeezz/utils.py (`FuncUtils`). */
module FuncUtils {
  import opened Common

  function Min(a: nat, b: nat): nat {
    if a <= b then a else b
  }

  /** `create_args_dict`: `dict(izip(params, args))`.  The keys are exactly
      the first min(|params|, |args|) parameter names; surplus positionals or
      parameters are dropped. */
  function CreateArgsDict<V>(params: seq<string>, args: seq<V>): (r: map<string, V>)
    ensures forall k :: k in r <==> k in params[..Min(|params|, |args|)]
    decreases |params|
  {
    var n := Min(|params|, |args|);
    if n == 0 then map[]
    else
      var ps, vs := params[..n - 1], args[..n - 1];
      var prev := CreateArgsDict(ps, vs);
      assert Min(|ps|, |vs|) == n - 1 && ps[..n - 1] == ps;
      assert params[..n] == ps + [params[n - 1]];
      prev[params[n - 1] := args[n - 1]]
  }

  /** The i-th filled parameter is bound to the i-th positional value; should
      a name repeat, its last binding is the one kept, as with `dict`. */
  lemma {:induction false} CreateArgsDictAt<V>(params: seq<string>, args: seq<V>, i: nat)
    requires i < Min(|params|, |args|)
    requires params[i] !in params[i + 1..Min(|params|, |args|)]
    ensures params[i] in CreateArgsDict(params, args)
    ensures CreateArgsDict(params, args)[params[i]] == args[i]
  {
    var n := Min(|params|, |args|);
    assert params[i] == params[..n][i];
    if i < n - 1 {
      var ps, vs := params[..n - 1], args[..n - 1];
      assert Min(|ps|, |vs|) == n - 1;
      assert params[i + 1..n] == ps[i + 1..n - 1] + [params[n - 1]];
      CreateArgsDictAt(ps, vs, i);
    }
  }

  /** With distinct parameter names, every filled parameter holds its own positional value. */
  lemma CreateArgsDictDistinct<V>(params: seq<string>, args: seq<V>, i: nat)
    requires Distinct(params)
    requires i < |params| && i < |args|
    ensures params[i] in CreateArgsDict(params, args)
    ensures CreateArgsDict(params, args)[params[i]] == args[i]
  {
    CreateArgsDictAt(params, args, i);
  }

  /** Two distinct parameters with two positionals give the two bindings. */
  lemma CreateArgsDictPair<V>(a: string, b: string, x: V, y: V)
    requires a != b
    ensures CreateArgsDict([a, b], [x, y]) == map[a := x, b := y]
  {
    var r := CreateArgsDict([a, b], [x, y]);
    CreateArgsDictDistinct([a, b], [x, y], 0);
    CreateArgsDictDistinct([a, b], [x, y], 1);
    assert r.Keys == {a, b};
  }

  /** `create_args_dict(f, (1, 2))` for `def f(arg1, arg2)` is `{arg1: 1, arg2: 2}`. */
  lemma CreateArgsDictExample()
    ensures CreateArgsDict(["arg1", "arg2"], [Int(1), Int(2)]) == map["arg1" := Int(1), "arg2" := Int(2)]
  {
    CreateArgsDictPair("arg1", "arg2", Int(1), Int(2));
  }

  /** The intended effect of `remove_invalid_kwargs`: drop every keyword that
      a positional already fills and, unless the callable takes `**kwargs`,
      every keyword that is not a declared parameter. */
  function InvalidKwargsRemoved(sig: Signature, args: seq<Value>, kwargs: map<string, Value>): map<string, Value>
  {
    if |kwargs| == 0 then kwargs
    else
      var filled := CreateArgsDict(sig.params, args);
      map k | k in kwargs && k !in filled && (sig.acceptsKwargs || k in sig.params) :: kwargs[k]
  }

  /** `remove_invalid_kwargs(func, args, kwargs)` with its two deletion loops,
      returning the dictionary the caller's `kwargs` becomes.  The first loop
      walks the names filled positionally; the second, only when the callable
      has no `**kwargs`, walks the remaining keywords. */
  method RemoveInvalidKwargs(sig: Signature, args: seq<Value>, kwargs: map<string, Value>)
    returns (out: map<string, Value>)
    ensures forall k :: k in out <==>
      k in kwargs && k !in CreateArgsDict(sig.params, args) && (sig.acceptsKwargs || k in sig.params)
    ensures forall k :: k in out ==> out[k] == kwargs[k]
    ensures out == InvalidKwargsRemoved(sig, args, kwargs)
  {
    out := kwargs;
    var filled := CreateArgsDict(sig.params, args);
    if |kwargs| == 0 {
      assert forall k :: k !in kwargs;
      return;
    }
    var todo := filled.Keys;
    while todo != {}
      invariant todo <= filled.Keys
      invariant forall k :: k in out <==> k in kwargs && (k !in filled || k in todo)
      invariant forall k :: k in out ==> out[k] == kwargs[k]
      decreases todo
    {
      var key :| key in todo;
      if key in out {
        out := out - {key};
      }
      todo := todo - {key};
    }
    if !sig.acceptsKwargs {
      var keys := out.Keys;
      var kept := out;
      while keys != {}
        invariant keys <= kept.Keys
        invariant forall k :: k in out <==> k in kept && (k in keys || k in sig.params)
        invariant forall k :: k in out ==> out[k] == kept[k]
        decreases keys
      {
        var key :| key in keys;
        if key !in sig.params {
          out := out - {key};
        }
        keys := keys - {key};
      }
    }
  }

  /** `remove_invalid_kwargs` as written: the second loop deletes from
      `kwargs` while iterating `kwargs.iterkeys()`, and Python 2 raises
      "dictionary changed size during iteration" at the next step after any
      such deletion.  It agrees with the intended effect exactly when that
      loop has nothing to delete. */
  function RemoveInvalidKwargsAsWritten(sig: Signature, args: seq<Value>, kwargs: map<string, Value>)
    : (r: Result<map<string, Value>>)
    ensures r.Err? <==>
      |kwargs| != 0 && !sig.acceptsKwargs &&
      exists k :: k in kwargs && k !in CreateArgsDict(sig.params, args) && k !in sig.params
    ensures r.Err? ==> r.error == ChangedSizeDuringIteration
    ensures r.Ok? ==> r.value == InvalidKwargsRemoved(sig, args, kwargs)
  {
    if |kwargs| == 0 then Ok(kwargs)
    else
      var afterFirst := kwargs - CreateArgsDict(sig.params, args).Keys;
      if !sig.acceptsKwargs && exists k :: k in afterFirst && k !in sig.params then
        Err(ChangedSizeDuringIteration)
      else
        Ok(afterFirst)
  }

  /** The extraneous keyword case: for `def f(a, b)` called with `(1, 2)` and
      `c=3`, the intended effect removes `c`, but the code as written raises. */
  lemma ExtraneousKeywordRaisesAsWritten()
    ensures RemoveInvalidKwargsAsWritten(Signature(["a", "b"], false), [Int(1), Int(2)], map["c" := Int(3)])
            == Err(ChangedSizeDuringIteration)
    ensures InvalidKwargsRemoved(Signature(["a", "b"], false), [Int(1), Int(2)], map["c" := Int(3)]) == map[]
  {
    var filled := CreateArgsDict(["a", "b"], [Int(1), Int(2)]);
    assert "c" !in filled;
    assert "c" !in ["a", "b"];
  }

  /** The unit tests of `remove_invalid_kwargs`: positionals `(1, 2)` with
      `{arg1: 3}` leave `{}`; positionals `(1,)` with `{arg2: 2}` leave the
      dictionary as it was. */
  lemma RemoveInvalidKwargsExamples()
    ensures InvalidKwargsRemoved(Signature(["arg1", "arg2"], false), [Int(1), Int(2)], map["arg1" := Int(3)]) == map[]
    ensures InvalidKwargsRemoved(Signature(["arg1", "arg2"], false), [Int(1)], map["arg2" := Int(2)]) == map["arg2" := Int(2)]
  {
    CreateArgsDictDistinct(["arg1", "arg2"], [Int(1), Int(2)], 0);
    var filled := CreateArgsDict(["arg1", "arg2"], [Int(1)]);
    assert ["arg1", "arg2"][..Min(2, 1)] == ["arg1"];
    assert "arg2" !in filled;
  }

  /** The operation only deletes: the result is a sub-map of the input with
      the same values, and removing again changes nothing. */
  lemma {:induction false} InvalidKwargsRemovedIdempotent(sig: Signature, args: seq<Value>, kwargs: map<string, Value>)
    ensures InvalidKwargsRemoved(sig, args, kwargs).Keys <= kwargs.Keys
    ensures InvalidKwargsRemoved(sig, args, InvalidKwargsRemoved(sig, args, kwargs)) == InvalidKwargsRemoved(sig, args, kwargs)
  {
    var once := InvalidKwargsRemoved(sig, args, kwargs);
    if |once| != 0 {
      var twice := InvalidKwargsRemoved(sig, args, once);
      assert twice.Keys == once.Keys;
    }
  }

  /** With no positionals nothing counts as filled: only the signature
      filter applies. */
  lemma InvalidKwargsRemovedNoPositionals(sig: Signature, kwargs: map<string, Value>)
    ensures forall k :: k in InvalidKwargsRemoved(sig, [], kwargs) <==>
      k in kwargs && (sig.acceptsKwargs || k in sig.params)
    ensures forall k :: k in InvalidKwargsRemoved(sig, [], kwargs) ==>
      InvalidKwargsRemoved(sig, [], kwargs)[k] == kwargs[k]
  {
    assert CreateArgsDict<Value>(sig.params, []) == map[];
  }
}
