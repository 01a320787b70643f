/**
 * The JavaScript values that the checklist code walks: the per-account
 * checklist trees (`data`, `ethData`, `runewordData`), their item leaves and
 * category nodes, and the getters that fetch a subtree.
 *
 * Both the server (`ItemScoreCalculator.isItem`) and the client (`Util.isItem`)
 * classify nodes with the structural rule `IsItem` defined here.
 */
module JsonTree {

  datatype Option<+T> = None | Some(value: T) {
    predicate IsFailure() { None? }
    function PropagateFailure<U>(): Option<U> requires None? { None }
    function Extract(): T requires Some? { value }
  }

  /** Which constructor built an object: a plain JSON object (`constructor === Object`)
      or an instance of the server's `Item` class (`instanceof Item`). */
  datatype Proto = PlainObject | ItemInstance

  /** A JavaScript value as it occurs in a checklist tree. An object keeps its
      own properties in enumeration order. `undefined` is `None` of `Option<Json>`. */
  datatype Json =
    | Null
    | Bool(b: bool)
    | Num(n: int)
    | Str(s: string)
    | Obj(proto: Proto, fields: seq<Field>)

  datatype Field = Field(key: string, value: Json)

  /** JavaScript truthiness of a defined value. */
  predicate Truthy(v: Json) {
    match v
    case Null => false
    case Bool(b) => b
    case Num(n) => n != 0
    case Str(s) => s != ""
    case Obj(_, _) => true
  }

  /** Truthiness of a possibly-undefined value (`if (x)`). */
  predicate Present(v: Option<Json>) {
    v.Some? && Truthy(v.value)
  }

  /** The own keys that `Object.keys` and `for ... in` enumerate, in order.
      Primitives have none in this model. */
  function Entries(v: Json): seq<Field> {
    if v.Obj? then v.fields else []
  }

  predicate HasKey(fields: seq<Field>, key: string) {
    exists i :: 0 <= i < |fields| && fields[i].key == key
  }

  /** The own properties of a JavaScript object have distinct names. */
  predicate UniqueKeys(fields: seq<Field>) {
    forall i, j :: 0 <= i < j < |fields| ==> fields[i].key != fields[j].key
  }

  lemma UniqueKeysPrefix(fields: seq<Field>, n: nat)
    requires UniqueKeys(fields) && n <= |fields|
    ensures UniqueKeys(fields[..n])
  {
    forall a, b | 0 <= a < b < n
      ensures fields[..n][a].key != fields[..n][b].key
    {
      assert fields[..n][a] == fields[a] && fields[..n][b] == fields[b];
    }
  }

  lemma HasKeySnoc(fields: seq<Field>, f: Field, key: string)
    ensures HasKey(fields + [f], key) <==> HasKey(fields, key) || f.key == key
  {
    if HasKey(fields, key) {
      var i :| 0 <= i < |fields| && fields[i].key == key;
      assert (fields + [f])[i].key == key;
    }
    if f.key == key {
      assert (fields + [f])[|fields|].key == key;
    }
    if HasKey(fields + [f], key) && f.key != key {
      var i :| 0 <= i < |fields + [f]| && (fields + [f])[i].key == key;
      assert fields[i].key == key;
    }
  }

  /** Splitting off the last element of the right operand of a concatenation. */
  lemma SplitLast<T>(a: seq<T>, b: seq<T>)
    requires b != []
    ensures b == b[..|b| - 1] + [b[|b| - 1]]
    ensures a + b == (a + b[..|b| - 1]) + [b[|b| - 1]]
  {
    assert b == b[..|b| - 1] + [b[|b| - 1]];
  }

  /** The parts of a suffix of a sequence are parts of the sequence. */
  lemma SuffixParts<T>(l: seq<T>, t: seq<T>, m: nat)
    requires |t| <= |l| && t == l[|l| - |t|..] && m <= |t|
    ensures t[..m] == l[|l| - |t|..|l| - |t| + m]
    ensures t[m..] == l[|l| - |t| + m..]
  {
  }

  /** `obj[key]` for an own property: the first field with that key. */
  function Lookup(fields: seq<Field>, key: string): (r: Option<Json>)
    ensures r.Some? <==> HasKey(fields, key)
  {
    if fields == [] then None
    else if fields[0].key == key then Some(fields[0].value)
    else
      var r := Lookup(fields[1..], key);
      assert HasKey(fields[1..], key) ==> HasKey(fields, key) by {
        if HasKey(fields[1..], key) {
          var i :| 0 <= i < |fields[1..]| && fields[1..][i].key == key;
          assert fields[i + 1].key == key;
        }
      }
      r
  }

  /** Property read `v.key` on a defined value; `undefined` when absent. */
  function Get(v: Json, key: string): Option<Json> {
    Lookup(Entries(v), key)
  }

  /** With distinct names, reading a property finds the field that carries it. */
  lemma {:induction false} LookupUnique(fields: seq<Field>, i: nat)
    requires UniqueKeys(fields) && i < |fields|
    ensures Lookup(fields, fields[i].key) == Some(fields[i].value)
  {
    if i > 0 {
      assert fields[0].key != fields[i].key;
      assert fields[1..][i - 1] == fields[i];
      LookupUnique(fields[1..], i - 1);
    }
  }

  /** `obj[key] = value` on an object's fields: an existing key keeps its
      position, a new key is appended. */
  function Put(fields: seq<Field>, key: string, value: Json): (r: seq<Field>)
    ensures Lookup(r, key) == Some(value)
    ensures forall k :: k != key ==> Lookup(r, k) == Lookup(fields, k)
    ensures HasKey(fields, key) ==> |r| == |fields|
    ensures !HasKey(fields, key) ==> r == fields + [Field(key, value)]
  {
    if fields == [] then [Field(key, value)]
    else if fields[0].key == key then
      var r := [Field(key, value)] + fields[1..];
      PutHead(fields, key, value);
      r
    else
      var rest := Put(fields[1..], key, value);
      PutTail(fields, key, value, rest);
      [fields[0]] + rest
  }

  lemma PutHead(fields: seq<Field>, key: string, value: Json)
    requires fields != [] && fields[0].key == key
    ensures var r := [Field(key, value)] + fields[1..];
      && Lookup(r, key) == Some(value)
      && (forall k :: k != key ==> Lookup(r, k) == Lookup(fields, k))
      && HasKey(fields, key) && |r| == |fields|
  {
    var r := [Field(key, value)] + fields[1..];
    assert r[1..] == fields[1..];
    assert fields[0].key == key;
  }

  lemma PutTail(fields: seq<Field>, key: string, value: Json, rest: seq<Field>)
    requires fields != [] && fields[0].key != key
    requires Lookup(rest, key) == Some(value)
    requires forall k :: k != key ==> Lookup(rest, k) == Lookup(fields[1..], k)
    requires HasKey(fields[1..], key) ==> |rest| == |fields[1..]|
    requires !HasKey(fields[1..], key) ==> rest == fields[1..] + [Field(key, value)]
    ensures var r := [fields[0]] + rest;
      && Lookup(r, key) == Some(value)
      && (forall k :: k != key ==> Lookup(r, k) == Lookup(fields, k))
      && (HasKey(fields, key) ==> |r| == |fields|)
      && (!HasKey(fields, key) ==> r == fields + [Field(key, value)])
  {
    var r := [fields[0]] + rest;
    assert r[1..] == rest;
    assert Lookup(fields, key) == Lookup(fields[1..], key);
    if !HasKey(fields, key) {
      assert fields == [fields[0]] + fields[1..];
    }
  }

  /** Writing a property adds its name to the object's names and no other. */
  lemma PutKeys(fields: seq<Field>, key: string, value: Json)
    ensures forall k :: HasKey(Put(fields, key, value), k) <==> HasKey(fields, k) || k == key
  {
    forall k
      ensures HasKey(Put(fields, key, value), k) <==> HasKey(fields, k) || k == key
    {
      assert Lookup(Put(fields, key, value), k).Some? <==> Lookup(fields, k).Some? || k == key;
    }
  }

  /** The own properties that `new Item()` declares. */
  const ItemKeys: set<string> := {"wasFound", "note", "isPerfect"}

  /** `isItem`: a non-null object with no own keys (an untouched template
      slot), or with at least one of the `Item` property names. */
  predicate IsItem(v: Json) {
    v.Obj? && (|v.fields| == 0 || exists i :: 0 <= i < |v.fields| && v.fields[i].key in ItemKeys)
  }

  lemma IsItemExactly(v: Json)
    ensures IsItem(v) <==>
      v.Obj? && (Entries(v) == [] || exists k :: k in ItemKeys && HasKey(Entries(v), k))
  {
    if v.Obj? && Entries(v) != [] && (exists k :: k in ItemKeys && HasKey(Entries(v), k)) {
      var k :| k in ItemKeys && HasKey(Entries(v), k);
      var i :| 0 <= i < |v.fields| && v.fields[i].key == k;
      assert v.fields[i].key in ItemKeys;
    }
  }

  /** A getter closure `() => expr`: it either throws or returns a value
      (`None` for `undefined`). */
  datatype Getter = Throws | Returns(result: Option<Json>)

  /** The value a walker works on: an empty object when its getter threw
      (the walker swallows the error), otherwise what the getter returned. */
  function Fetched(get: Getter): Option<Json> {
    match get
    case Throws => Some(Obj(PlainObject, []))
    case Returns(r) => r
  }

  /** The getter `() => root.k1.k2...kn`: reading a property of `undefined`
      or `null` throws; reading a missing property gives `undefined`. */
  function PathGetter(root: Option<Json>, path: seq<string>): Getter
    decreases |path|
  {
    if path == [] then Returns(root)
    else if root.None? || root.value.Null? then Throws
    else PathGetter(Get(root.value, path[0]), path[1..])
  }
}
