/** Shared vocabulary: the Python values the library passes around, the
    exceptions it can raise, and the abstract signature of a callable. */
module Common {

  datatype Option<T> = None | Some(value: T)

  /** A computation that either yields a value or raises a Python exception. */
  datatype Result<T> = Ok(value: T) | Err(error: Error)

  /** A check that either passes or raises. */
  datatype Outcome = Pass | Fail(error: Error)

  datatype TypeErrorKind =
    | Mismatch(arg: string)   // "<arg> is <value> and not of type <types>"
    | NotIterable             // `None in <class>`
    | NotAClass               // `isinstance(x, None)`

  /** The Python exceptions the modelled code can raise. */
  datatype Error =
    | KeyError(key: string)
    | TypeError(kind: TypeErrorKind)
    | IndexError
    | AttributeError(attr: string)
    | ChangedSizeDuringIteration   // RuntimeError: dictionary changed size during iteration
    | RecursionDepthExceeded       // RuntimeError: maximum recursion depth exceeded

  /** The Python objects that flow through the library.  Arbitrary user
      objects are `Obj`; `name` is their `__name__` when they have one
      (functions and classes). */
  datatype Value =
    | NoneValue
    | Bool(b: bool)
    | Int(i: int)
    | Str(s: string)
    | Obj(id: nat, name: Option<string>)
    | InjectedMarker                                      // the `Injected` placeholder class
    | ImportedRef(moduleName: string, package: Option<string>) // an `Imported` instance
    | InjectedBundle(providers: map<string, Value>, bindings: map<string, Value>)
    | MockMethod(result: Value)                           // a `Mock.__MockMethod`
    | TupleOf(items: seq<Value>)                          // a tuple
    | DictOf(entries: map<string, Value>)                 // a dictionary with string keys

  /** What `inspect.getargspec` reports about a callable: its declared
      positional parameter names, in order, and whether it takes `**kwargs`. */
  datatype Signature = Signature(params: seq<string>, acceptsKwargs: bool)

  /** Python forbids a parameter name to be declared twice. */
  predicate Distinct(s: seq<string>) {
    forall i, j :: 0 <= i < j < |s| ==> s[i] != s[j]
  }

  /** Attribute lookup on the library's view objects: a missing name yields
      None instead of raising. */
  function Lookup(m: map<string, Value>, name: string): (r: Value)
    ensures name in m ==> r == m[name]
    ensures name !in m ==> r == NoneValue
  {
    if name in m then m[name] else NoneValue
  }

  /** Python truthiness of a value: None, False, zero and the empty string
      are false; every other value is true. */
  predicate Truthy(v: Value) {
    match v
    case NoneValue => false
    case Bool(b) => b
    case Int(i) => i != 0
    case Str(s) => s != ""
    case TupleOf(items) => items != []
    case DictOf(entries) => entries != map[]
    case _ => true
  }

  /** Reading an instance attribute through a class whose `__getattr__`
      reads that same attribute again.  While the attribute is unset, every
      read re-enters `__getattr__`; `limit` is the interpreter's remaining
      recursion depth.  The cycle itself never ends: this countdown only
      encodes that non-termination as the RuntimeError the interpreter
      raises once its depth budget is spent. */
  function ReadThroughGetAttr(present: bool, limit: nat): (r: Outcome)
    ensures present ==> r == Pass
    decreases limit
  {
    if present then Pass
    else if limit == 0 then Fail(RecursionDepthExceeded)
    else ReadThroughGetAttr(present, limit - 1)
  }

  /** An unset attribute read this way exhausts any recursion limit.  With
      the cycle encoded as a countdown this holds by construction; it states
      that the cycle has no exit, not a bound on how deep it goes. */
  lemma {:induction false} UnsetAttributeExhaustsStack(limit: nat)
    ensures ReadThroughGetAttr(false, limit) == Fail(RecursionDepthExceeded)
    decreases limit
  {
    if limit > 0 {
      UnsetAttributeExhaustsStack(limit - 1);
    }
  }

  /** `list.index(x)`: the position of the first element equal to `x`. */
  function IndexOf<T(==)>(s: seq<T>, x: T): (i: nat)
    requires x in s
    ensures i < |s| && s[i] == x && x !in s[..i]
  {
    if s[0] == x then 0
    else
      var i := 1 + IndexOf(s[1..], x);
      assert s[..i] == [s[0]] + s[1..][..i - 1];
      i
  }

  /** `list.remove(x)`: drops the first element equal to `x`; a list
      without `x` is left as it is (Python raises ValueError there, which
      the callers handle or rule out). */
  function RemoveFirst<T(==)>(s: seq<T>, x: T): (r: seq<T>)
    ensures x !in s ==> r == s
    ensures x in s ==> |r| == |s| - 1
    ensures x in s ==> r == s[..IndexOf(s, x)] + s[IndexOf(s, x) + 1..]
  {
    if x in s then s[..IndexOf(s, x)] + s[IndexOf(s, x) + 1..] else s
  }

  /** Where the elements of `list.remove(x)` come from: the ones before the
      removed occurrence keep their index, the later ones move down by one. */
  lemma RemoveFirstAt<T>(s: seq<T>, x: T, j: nat)
    requires x in s && j < |RemoveFirst(s, x)|
    ensures RemoveFirst(s, x)[j] == if j < IndexOf(s, x) then s[j] else s[j + 1]
  {
    var k := IndexOf(s, x);
    var front, back := s[..k], s[k + 1..];
    assert RemoveFirst(s, x) == front + back;
    if j < k {
      assert (front + back)[j] == front[j];
    } else {
      assert (front + back)[j] == back[j - k];
    }
  }

  /** Every element other than the removed occurrence is still present. */
  lemma RemoveFirstKeeps<T>(s: seq<T>, x: T, i: nat)
    requires x in s && i < |s| && i != IndexOf(s, x)
    ensures i < IndexOf(s, x) ==> RemoveFirst(s, x)[i] == s[i]
    ensures i > IndexOf(s, x) ==> RemoveFirst(s, x)[i - 1] == s[i]
  {
    if i < IndexOf(s, x) {
      RemoveFirstAt(s, x, i);
    } else {
      RemoveFirstAt(s, x, i - 1);
    }
  }
}
