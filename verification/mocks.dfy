/** The test doubles of src/sqeezz/test.py: `Mock`, a named builder of a
    member dictionary, and `MockInjector`, which bundles mocks under an
    injection-point keyword.  The views `create()` hands out hold the
    builders' dictionaries by reference, so the dictionaries are objects
    here. */
module Mocks {
  import opened Common

  /** A dictionary of mock members, shared by reference. */
  class Members {
    var entries: map<string, Value>

    constructor(entries: map<string, Value>)
      ensures this.entries == entries
    {
      this.entries := entries;
    }
  }

  /** `Mock.__Mock`: attribute lookup on a members dictionary; a missing
      name yields None. */
  class MockView {
    const members: Members

    constructor(members: Members)
      ensures this.members == members
    {
      this.members := members;
    }

    function Get(item: string): (r: Value)
      reads members
      ensures item in members.entries ==> r == members.entries[item]
      ensures item !in members.entries ==> r == NoneValue
    {
      Lookup(members.entries, item)
    }
  }

  /** Calling a `__MockMethod`: the stored value, whatever the arguments. */
  function CallMember(member: Value, args: seq<Value>, kwargs: map<string, Value>): (r: Value)
    requires member.MockMethod?
    ensures member == MockMethod(r)
  {
    member.result
  }

  /** `Mock(name)`. */
  class Mock {
    const name: string
    var members: Members

    constructor(name: string)
      ensures this.name == name
      ensures fresh(members) && members.entries == map[]
    {
      this.name := name;
      members := new Members(map[]);
    }

    /** `add_method(item, value)`: a member that returns `value` when called. */
    method AddMethod(item: string, value: Value) returns (self: Mock)
      modifies members
      ensures members.entries == old(members.entries)[item := MockMethod(value)]
      ensures self == this
    {
      members.entries := members.entries[item := MockMethod(value)];
      self := this;
    }

    /** `add_attribute(item, value)`: overwrites any member of that name. */
    method AddAttribute(item: string, value: Value) returns (self: Mock)
      modifies members
      ensures members.entries == old(members.entries)[item := value]
      ensures self == this
    {
      members.entries := members.entries[item := value];
      self := this;
    }

    /** `create()`: one entry, the mock's name, bound to a new view over
        the current members dictionary. */
    method Create() returns (r: map<string, MockView>)
      ensures r.Keys == {name}
      ensures fresh(r[name]) && r[name].members == members
    {
      var view := new MockView(members);
      r := map[name := view];
    }

    /** `value(members)`: the given dictionary becomes the members. */
    method SetValue(value: Members)
      modifies this
      ensures members == value
    {
      members := value;
    }
  }

  /** A dictionary of mock views, shared by reference. */
  class Views {
    var entries: map<string, MockView>

    constructor()
      ensures entries == map[]
    {
      entries := map[];
    }
  }

  /** `MockInjector.__Providers`: lookup of a mock by name; a missing name
      yields None. */
  class ProvidersView {
    const mocks: Views

    constructor(mocks: Views)
      ensures this.mocks == mocks
    {
      this.mocks := mocks;
    }

    function Get(item: string): (r: Option<MockView>)
      reads mocks
      ensures item in mocks.entries ==> r == Some(mocks.entries[item])
      ensures item !in mocks.entries ==> r == None
    {
      if item in mocks.entries then Some(mocks.entries[item]) else None
    }
  }

  /** `MockInjector(injection_point)`. */
  class MockInjector {
    const injectionPoint: string
    const mocks: Views

    constructor(injectionPoint: string)
      ensures this.injectionPoint == injectionPoint
      ensures fresh(mocks) && mocks.entries == map[]
    {
      this.injectionPoint := injectionPoint;
      mocks := new Views();
    }

    /** `add_mock(mock)`: merges `mock.create()`, so the mock's name now
        maps to a view over its members, replacing any earlier mock of that
        name; other names are untouched. */
    method AddMock(mock: Mock) returns (self: MockInjector)
      modifies mocks
      ensures mocks.entries.Keys == old(mocks.entries.Keys) + {mock.name}
      ensures fresh(mocks.entries[mock.name]) && mocks.entries[mock.name].members == mock.members
      ensures forall k :: k in old(mocks.entries) && k != mock.name ==> mocks.entries[k] == old(mocks.entries[k])
      ensures self == this
    {
      var created := mock.Create();
      mocks.entries := mocks.entries + created;
      self := this;
    }

    /** `create()`: the injection point bound to a view over the mocks
        dictionary. */
    method Create() returns (r: map<string, ProvidersView>)
      ensures r.Keys == {injectionPoint}
      ensures fresh(r[injectionPoint]) && r[injectionPoint].mocks == mocks
    {
      var view := new ProvidersView(mocks);
      r := map[injectionPoint := view];
    }
  }

  /** A view handed out by `create()` sees members added afterwards, since
      it holds the dictionary itself, and calling an added method yields its
      value. */
  method ViewSeesLaterMembers(name: string, item: string, value: Value, args: seq<Value>)
    returns (seen: Value, result: Value)
    ensures seen == MockMethod(value)
    ensures result == value
  {
    var mock := new Mock(name);
    var created := mock.Create();
    var view := created[name];
    var _ := mock.AddMethod(item, value);
    seen := view.Get(item);
    result := CallMember(seen, args, map[]);
  }

  /** `value(...)` replaces the dictionary: views created before keep
      showing the old members, views created after show the new ones. */
  method ReplacedMembersHiddenFromEarlierView(name: string, item: string, a: Value, b: Value, other: string)
    returns (before: Value, after: Value, missing: Value)
    requires other != item
    ensures before == a && after == b && missing == NoneValue
  {
    var mock := new Mock(name);
    var _ := mock.AddAttribute(item, a);
    var first := mock.Create();
    var replacement := new Members(map[item := b]);
    mock.SetValue(replacement);
    var second := mock.Create();
    before := first[name].Get(item);
    after := second[name].Get(item);
    missing := second[name].Get(other);
  }

  /** The injector's bundle resolves a mock by name and a missing name to
      None; of two mocks with one name the later one wins, and the bundle,
      like the mock views, follows later additions. */
  method InjectorBundle(ip: string, name: string, item: string, first: Value, second: Value, unknown: string)
    returns (found: Value, absent: Option<MockView>)
    requires unknown != name
    ensures found == second
    ensures absent == None
  {
    var injector := new MockInjector(ip);
    var bundle := injector.Create();
    var older := new Mock(name);
    var _ := older.AddAttribute(item, first);
    var newer := new Mock(name);
    var _ := newer.AddAttribute(item, second);
    var _ := injector.AddMock(older);
    var _ := injector.AddMock(newer);
    var view := bundle[ip].Get(name);
    found := view.value.Get(item);
    absent := bundle[ip].Get(unknown);
  }
}
