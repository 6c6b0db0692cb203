/** `StringConcat` of sqeezz_magic/__init__.py: a mutable buffer of string
    pieces, grown by `+`, shrunk by `-`, and rendered by joining. */
module Magic {
  import opened Common

  /** The pieces `list.extend` adds for a string: one per character. */
  function Chars(s: string): (r: seq<string>)
    ensures |r| == |s|
    ensures forall i :: 0 <= i < |s| ==> r[i] == [s[i]]
  {
    if s == [] then [] else [[s[0]]] + Chars(s[1..])
  }

  /** `''.join(pieces)`. */
  function Join(pieces: seq<string>): string {
    if pieces == [] then "" else pieces[0] + Join(pieces[1..])
  }

  /** Joining distributes over concatenation of piece lists. */
  lemma {:induction false} JoinAppend(a: seq<string>, b: seq<string>)
    ensures Join(a + b) == Join(a) + Join(b)
    decreases |a|
  {
    if a != [] {
      assert (a + b)[1..] == a[1..] + b;
      JoinAppend(a[1..], b);
    } else {
      assert a + b == b;
    }
  }

  /** Joining the characters of a string gives the string back. */
  lemma {:induction false} JoinChars(s: string)
    ensures Join(Chars(s)) == s
    decreases |s|
  {
    if s != [] {
      assert Chars(s)[1..] == Chars(s[1..]);
      JoinChars(s[1..]);
    }
  }

  /** `StringConcat(value)`. */
  class StringConcat {
    var buffer: seq<string>

    /** A string is kept as the one initial piece; None or any other value
        gives an empty buffer. */
    constructor(value: Value)
      ensures value.Str? ==> buffer == [value.s]
      ensures !value.Str? ==> buffer == []
    {
      if value.Str? {
        buffer := [value.s];
      } else {
        buffer := [];
      }
    }

    /** `unicode(self)`: the pieces joined. */
    function Render(): string
      reads this
    {
      Join(buffer)
    }

    /** `self + other`: the characters of `other` become pieces; a
        non-string is first turned into text by `unicodeOf`, standing for
        `unicode()`.  The rendering grows by exactly that text. */
    method Add(other: Value, unicodeOf: Value -> string) returns (self: StringConcat)
      modifies this
      ensures buffer == old(buffer) + Chars(if other.Str? then other.s else unicodeOf(other))
      ensures Render() == old(Render()) + (if other.Str? then other.s else unicodeOf(other))
      ensures self == this
    {
      var text := if other.Str? then other.s else unicodeOf(other);
      JoinAppend(buffer, Chars(text));
      JoinChars(text);
      buffer := buffer + Chars(text);
      self := this;
    }

    /** `self - other`: the first piece equal to `other` is removed; when
        there is none the ValueError is swallowed and nothing changes.  Only
        a string can equal a piece. */
    method Sub(other: Value) returns (self: StringConcat)
      modifies this
      ensures other.Str? ==> buffer == RemoveFirst(old(buffer), other.s)
      ensures !other.Str? ==> buffer == old(buffer)
      ensures self == this
    {
      if other.Str? {
        buffer := RemoveFirst(buffer, other.s);
      }
      self := this;
    }

    /** `clear()`: an empty buffer, rendering as the empty string. */
    method Clear() returns (self: StringConcat)
      modifies this
      ensures buffer == [] && Render() == ""
      ensures self == this
    {
      buffer := [];
      self := this;
    }
  }

  /** A string of other than one character is never a piece that `+` made,
      so subtracting it from a buffer grown by `+` changes nothing unless
      the earlier pieces hold it. */
  lemma MultiCharacterNotSubtracted(earlier: seq<string>, added: string, t: string)
    requires |t| != 1 && t !in earlier
    ensures RemoveFirst(earlier + Chars(added), t) == earlier + Chars(added)
  {
    assert t !in Chars(added) by {
      forall i | 0 <= i < |Chars(added)|
        ensures Chars(added)[i] != t
      {
        assert |Chars(added)[i]| == 1;
      }
    }
  }

  /** Subtracting a piece that is present removes exactly one occurrence of
      it and keeps every other piece. */
  lemma SubtractRemovesOneOccurrence(buffer: seq<string>, piece: string)
    requires piece in buffer
    ensures multiset(RemoveFirst(buffer, piece)) == multiset(buffer) - multiset{piece}
  {
    var k := IndexOf(buffer, piece);
    assert buffer == buffer[..k] + [piece] + buffer[k + 1..];
    assert multiset(buffer) == multiset(buffer[..k]) + multiset{piece} + multiset(buffer[k + 1..]);
  }

  /** Building `StringConcat("ab") + "cd"` and then subtracting `"c"`
      renders as `"abd"`; subtracting `"cd"` instead changes nothing. */
  method ConcatExample() returns (afterChar: string, afterWord: string)
    ensures afterChar == "abd"
    ensures afterWord == "abcd"
  {
    var unicodeOf := (v: Value) => "";
    var sc := new StringConcat(Str("ab"));
    var _ := sc.Add(Str("cd"), unicodeOf);
    assert sc.buffer == ["ab", "c", "d"];
    var _ := sc.Sub(Str("cd"));
    assert sc.buffer == ["ab", "c", "d"];
    afterWord := sc.Render();
    var _ := sc.Sub(Str("c"));
    assert IndexOf(["ab", "c", "d"], "c") == 1;
    assert sc.buffer == ["ab", "d"];
    afterChar := sc.Render();
  }
}
