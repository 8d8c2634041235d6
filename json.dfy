/** The values `json.loads` produces, as the handlers see them: objects keep
    their members in document order, and a repeated key resolves to its last
    occurrence, as in a Python dict built from JSON text. Numbers are kept as
    exact reals; float rounding is not part of this model. */
module Json {
  import opened Wrappers
  import Text

  datatype Value =
    | Null
    | Bool(b: bool)
    | Num(x: real)
    | Str(s: string)
    | Arr(items: seq<Value>)
    | Obj(members: seq<(string, Value)>)

  /** `d.get(key)` / `d[key]` on a dict decoded from JSON: the value of the
      last member with that key, or `None` when the key is absent. */
  function Get<T>(members: seq<(string, T)>, key: string): (r: Option<T>)
    ensures r.None? <==> forall i :: 0 <= i < |members| ==> members[i].0 != key
    ensures r.Some? ==> exists i :: 0 <= i < |members| && members[i] == (key, r.value) &&
                                    forall j :: i < j < |members| ==> members[j].0 != key
    decreases |members|
  {
    if members == [] then None
    else if members[|members| - 1].0 == key then Some(members[|members| - 1].1)
    else Get(members[..|members| - 1], key)
  }

  /** No key occurs twice. */
  predicate DistinctKeys<T>(members: seq<(string, T)>) {
    forall i, j :: 0 <= i < j < |members| ==> members[i].0 != members[j].0
  }

  /** Storing `d[key] = value`: an existing key keeps its position and takes
      the new value; a new key goes to the end. */
  function Store<T>(members: seq<(string, T)>, key: string, value: T): seq<(string, T)>
    decreases |members|
  {
    if members == [] then [(key, value)]
    else if members[0].0 == key then [(key, value)] + members[1..]
    else [members[0]] + Store(members[1..], key, value)
  }

  /** The dict `json.loads` builds from an object's members, as `items()`
      lists it: members are stored one after another, so each key appears
      once, where it first occurred, with the value it last had. */
  function DictOf<T>(members: seq<(string, T)>): seq<(string, T)>
    decreases |members|
  {
    if members == [] then []
    else
      var last := members[|members| - 1];
      Store(DictOf(members[..|members| - 1]), last.0, last.1)
  }

  lemma {:induction false} StoreEffect<T>(members: seq<(string, T)>, key: string, value: T)
    requires DistinctKeys(members)
    ensures DistinctKeys(Store(members, key, value))
    ensures Get(Store(members, key, value), key) == Some(value)
    ensures forall q :: q != key ==> Get(Store(members, key, value), q) == Get(members, q)
    ensures |Store(members, key, value)| <= |members| + 1
    decreases |members|
  {
    var r := Store(members, key, value);
    if members == [] {
    } else if members[0].0 == key {
      forall i | 0 <= i < |members[1..]| ensures members[1..][i].0 != key {
        assert members[1..][i] == members[i + 1];
      }
      GetCons((key, value), members[1..], key);
      forall q | q != key ensures Get(r, q) == Get(members, q) {
        KeyOnlyAtHead(members, q);
        KeyOnlyAtHead(r, q);
      }
    } else {
      var rest := Store(members[1..], key, value);
      StoreEffect(members[1..], key, value);
      assert r == [members[0]] + rest;
      forall i | 0 <= i < |members[1..]| ensures members[1..][i].0 != members[0].0 {
        assert members[1..][i] == members[i + 1];
      }
      assert Get(rest, members[0].0).None?;
      forall q ensures Get(r, q) == if q == key then Some(value) else Get(members, q) {
        GetCons(members[0], rest, q);
        GetCons(members[0], members[1..], q);
        assert members == [members[0]] + members[1..];
      }
    }
  }

  /** Looking a key up in a list with a given first member. */
  lemma {:induction false} GetCons<T>(head: (string, T), tail: seq<(string, T)>, q: string)
    ensures Get([head] + tail, q) == if Get(tail, q).Some? then Get(tail, q)
                                     else if head.0 == q then Some(head.1) else None
    decreases |tail|
  {
    var m := [head] + tail;
    if tail == [] {
      assert m[..|m| - 1] == [];
    } else {
      assert m[|m| - 1] == tail[|tail| - 1];
      assert m[..|m| - 1] == [head] + tail[..|tail| - 1];
      GetCons(head, tail[..|tail| - 1], q);
    }
  }

  /** In a list whose first member has key `key` and no other member has it,
      any other key is looked up in the tail. */
  lemma KeyOnlyAtHead<T>(members: seq<(string, T)>, q: string)
    requires members != [] && members[0].0 != q
    ensures Get(members, q) == Get(members[1..], q)
  {
    GetCons(members[0], members[1..], q);
    assert members == [members[0]] + members[1..];
  }

  /** Building the dict keeps each key once, and every lookup answers as on
      the raw members: the value of the last occurrence. */
  lemma {:induction false} DictOfLookup<T>(members: seq<(string, T)>)
    ensures DistinctKeys(DictOf(members))
    ensures forall q :: Get(DictOf(members), q) == Get(members, q)
    ensures |DictOf(members)| <= |members|
    decreases |members|
  {
    if members != [] {
      var init := members[..|members| - 1];
      var last := members[|members| - 1];
      DictOfLookup(init);
      StoreEffect(DictOf(init), last.0, last.1);
      forall q ensures Get(DictOf(members), q) == Get(members, q) {
        if q != last.0 {
          assert Get(members, q) == Get(init, q);
        }
      }
    }
  }

  /** Python truthiness of a decoded value. */
  predicate Truthy(v: Value) {
    match v
    case Null => false
    case Bool(b) => b
    case Num(x) => x != 0.0
    case Str(s) => s != ""
    case Arr(items) => items != []
    case Obj(members) => members != []
  }

  /** The Python expression `needle in container` for a string needle:
      a substring test on a string, element membership on a list, key
      membership on a dict; on a number, a boolean or `None` it raises
      `TypeError`, which is `None` here. */
  function InOperator(needle: string, container: Value): (r: Option<bool>)
    ensures r.None? <==> !(container.Str? || container.Arr? || container.Obj?)
    ensures container.Str? ==> r == Some(Text.Contains(container.s, needle))
    ensures container.Arr? ==> r == Some(Str(needle) in container.items)
    ensures container.Obj? ==> r == Some(Get(container.members, needle).Some?)
  {
    match container
    case Str(s) => Some(Text.Contains(s, needle))
    case Arr(items) => Some(Str(needle) in items)
    case Obj(members) => Some(Get(members, needle).Some?)
    case _ => None
  }
}
