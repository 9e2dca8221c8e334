/** The realtime database as the model sees it: a tree of JSON-like nodes
    under string keys, and the casts (`as? [String: Any]`,
    `as? [[String: Any]]`, `as? [[String: String]]`) the source applies to
    snapshot values. */
module Tree {
  import opened Wrappers

  /** A stored value: a string, a boolean, an array or a dictionary. */
  datatype Node =
    | Str(s: string)
    | Flag(b: bool)
    | List(items: seq<Node>)
    | Dict(fields: map<string, Node>)

  /** The root of the database: its top-level children by key. */
  type Store = map<string, Node>

  /** A user-directory entry as the app holds it: `[String: String]`. */
  type StringDict = map<string, string>

  /** `database.child(key)`'s snapshot value; `None` when nothing is stored. */
  function Child(store: Store, key: string): (r: Option<Node>)
    ensures r.Some? <==> key in store
    ensures r.Some? ==> r.value == store[key]
  {
    if key in store then Some(store[key]) else None
  }

  /** `value as? [String: Any]`. */
  function AsDict(v: Option<Node>): (r: Option<map<string, Node>>)
    ensures r.Some? <==> v.Some? && v.value.Dict?
    ensures r.Some? ==> v.value == Dict(r.value)
  {
    match v
    case Some(Dict(fields)) => Some(fields)
    case _ => None
  }

  /** Every element of an array is a dictionary. */
  predicate AllDicts(items: seq<Node>)
  {
    forall i :: 0 <= i < |items| ==> items[i].Dict?
  }

  /** The dictionaries of an array all of whose elements are dictionaries. */
  function FieldsOf(items: seq<Node>): (r: seq<map<string, Node>>)
    requires AllDicts(items)
    ensures |r| == |items|
    ensures forall i :: 0 <= i < |items| ==> items[i] == Dict(r[i])
    decreases |items|
  {
    if items == [] then [] else [items[0].fields] + FieldsOf(items[1..])
  }

  /** `value as? [[String: Any]]`: an array whose every element is a
      dictionary; one stray element makes the whole cast fail. */
  function AsDictList(v: Option<Node>): (r: Option<seq<map<string, Node>>>)
    ensures r.Some? <==> v.Some? && v.value.List? && AllDicts(v.value.items)
    ensures r.Some? ==> |r.value| == |v.value.items|
    ensures r.Some? ==> forall i :: 0 <= i < |r.value| ==> v.value.items[i] == Dict(r.value[i])
  {
    match v
    case Some(List(items)) => if AllDicts(items) then Some(FieldsOf(items)) else None
    case _ => None
  }

  /** A dictionary node whose every value is a string. */
  predicate IsStringDict(n: Node)
  {
    n.Dict? && forall k :: k in n.fields ==> n.fields[k].Str?
  }

  /** Every element of an array is a dictionary of strings. */
  predicate AllStringDicts(items: seq<Node>)
  {
    forall i :: 0 <= i < |items| ==> IsStringDict(items[i])
  }

  /** The node that stores a `[String: String]`. */
  function EncodeStringDict(d: StringDict): (n: Node)
    ensures IsStringDict(n) && n.fields.Keys == d.Keys
  {
    Dict(map k | k in d :: Str(d[k]))
  }

  /** The `[String: String]` a string-dictionary node holds. */
  function DecodeStringDict(n: Node): (d: StringDict)
    requires IsStringDict(n)
    ensures d.Keys == n.fields.Keys
    ensures forall k :: k in d ==> n.fields[k] == Str(d[k])
  {
    map k | k in n.fields :: n.fields[k].s
  }

  /** The string dictionaries of an array all of whose elements are ones. */
  function DecodeStringDicts(items: seq<Node>): (r: seq<StringDict>)
    requires AllStringDicts(items)
    ensures |r| == |items|
    ensures forall i :: 0 <= i < |items| ==> EncodeStringDict(r[i]) == items[i]
    decreases |items|
  {
    if items == [] then []
    else
      StringDictRoundTrip(items[0]);
      [DecodeStringDict(items[0])] + DecodeStringDicts(items[1..])
  }

  /** `value as? [[String: String]]`. */
  function AsStringDictList(v: Option<Node>): (r: Option<seq<StringDict>>)
    ensures r.Some? <==> v.Some? && v.value.List? && AllStringDicts(v.value.items)
    ensures r.Some? ==> |r.value| == |v.value.items|
    ensures r.Some? ==> forall i :: 0 <= i < |r.value| ==> EncodeStringDict(r.value[i]) == v.value.items[i]
  {
    match v
    case Some(List(items)) => if AllStringDicts(items) then Some(DecodeStringDicts(items)) else None
    case _ => None
  }

  /** Decoding a string-dictionary node and storing the result again gives
      back the same node. */
  lemma StringDictRoundTrip(n: Node)
    requires IsStringDict(n)
    ensures EncodeStringDict(DecodeStringDict(n)) == n
  {
    var d := DecodeStringDict(n);
    assert EncodeStringDict(d).fields == n.fields;
  }

  /** Storing a `[String: String]` and reading it back gives it back. */
  lemma StringDictDecodesBack(d: StringDict)
    ensures DecodeStringDict(EncodeStringDict(d)) == d
  {
  }

  /** Reading back a stored array of string dictionaries gives the array. */
  lemma StringDictListRoundTrip(ds: seq<StringDict>)
    ensures AsStringDictList(Some(List(EncodeStringDicts(ds)))) == Some(ds)
  {
    var items := EncodeStringDicts(ds);
    var r := AsStringDictList(Some(List(items)));
    forall i | 0 <= i < |ds|
      ensures r.value[i] == ds[i]
    {
      assert EncodeStringDict(r.value[i]) == EncodeStringDict(ds[i]);
      StringDictDecodesBack(ds[i]);
      StringDictDecodesBack(r.value[i]);
    }
    assert r.value == ds;
  }

  /** The array node for a list of string dictionaries. */
  function EncodeStringDicts(ds: seq<StringDict>): (items: seq<Node>)
    ensures |items| == |ds| && AllStringDicts(items)
    ensures forall i :: 0 <= i < |ds| ==> items[i] == EncodeStringDict(ds[i])
  {
    seq(|ds|, i requires 0 <= i < |ds| => EncodeStringDict(ds[i]))
  }
}
