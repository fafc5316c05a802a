/** The card printer inspects an arbitrary .NET object through reflection
    and serialises it with System.Text.Json. This module stands for both:
    an object is a tagged value whose records list their public properties,
    and serialisation is a pair of given functions that may fail. */
module Reflection {
  import opened Wrappers
  import opened Text

  /** A .NET object as the printer sees it. `OtherScalar` covers the other
      types the printer treats as scalars (char, floating point, DateTime,
      Guid, Uri) by the text they print as. Collections and records carry
      their type name, which is what their ToString() returns. `Pair` is the
      KeyValuePair struct a dictionary yields when enumerated. */
  datatype Value =
    | Null
    | Str(s: string)
    | Bool(b: bool)
    | Int(i: int)
    | OtherScalar(text: string)
    | List(listType: string, items: seq<Value>)
    | Dict(dictType: string, entries: seq<Entry>)
    | Record(recordType: string, props: seq<Property>)
    | Pair(key: Value, val: Value)

  /** A public instance property and the value its getter returns. */
  datatype Property = Property(name: string, value: Value)

  /** A dictionary entry. */
  datatype Entry = Entry(key: Value, value: Value)

  /** JsonSerializer.Serialize with the indented options and with the compact
      ones; None when serialisation throws. */
  datatype Serializer = Serializer(indented: Value -> Option<string>, compact: Value -> Option<string>)

  /** The first property named `name` in a list of properties. */
  function FindProp(props: seq<Property>, name: string): (r: Option<Value>)
    ensures r.None? <==> forall k :: 0 <= k < |props| ==> props[k].name != name
    ensures r.Some? ==> exists k :: 0 <= k < |props| && props[k] == Property(name, r.value)
                          && forall j :: 0 <= j < k ==> props[j].name != name
  {
    if props == [] then None
    else if props[0].name == name then Some(props[0].value)
    else
      var r := FindProp(props[1..], name);
      assert forall k :: 1 <= k < |props| ==> props[k] == props[1..][k - 1];
      r
  }

  /** The public properties reflection lists for an object: a record's own,
      and `Key` and `Value` for a key/value pair. */
  function PublicProps(obj: Value): seq<Property> {
    match obj
    case Record(_, props) => props
    case Pair(k, v) => [Property("Key", k), Property("Value", v)]
    case _ => []
  }

  /** GetProp(obj, name)?.GetValue(obj): None when the object has no such
      property, Some(Null) when it has one whose value is null. */
  function GetProp(obj: Value, name: string): (r: Option<Value>)
    ensures r.Some? ==> Property(name, r.value) in PublicProps(obj)
    ensures !obj.Record? && !obj.Pair? ==> r.None?
  {
    var r := FindProp(PublicProps(obj), name);
    assert r.Some? ==> exists k :: 0 <= k < |PublicProps(obj)| && PublicProps(obj)[k] == Property(name, r.value);
    r
  }

  /** GetProp finds a property exactly when the object has one of that name,
      and then it is the first such property. Kept apart from GetProp's own
      contract so that its callers do not carry the quantifiers. */
  lemma GetPropFindsPresent(obj: Value, name: string)
    ensures GetProp(obj, name).None? <==> forall p :: p in PublicProps(obj) ==> p.name != name
    ensures GetProp(obj, name).Some? ==>
              exists k :: 0 <= k < |PublicProps(obj)| && PublicProps(obj)[k] == Property(name, GetProp(obj, name).value)
                          && forall j :: 0 <= j < k ==> PublicProps(obj)[j].name != name
  {
    var ps := PublicProps(obj);
    assert GetProp(obj, name) == FindProp(ps, name);
    assert (forall p :: p in ps ==> p.name != name) <==> (forall k :: 0 <= k < |ps| ==> ps[k].name != name);
  }

  /** object.ToString(); None stands for calling it through `?.` on null. */
  function ToString(v: Value): (r: Option<string>)
    ensures r.None? <==> v.Null?
    ensures v.Str? ==> r == Some(v.s)
    ensures v.Pair? ==> |r.value| >= 2 && r.value[0] == '[' && r.value[|r.value| - 1] == ']'
  {
    match v
    case Null => None
    case Str(s) => Some(s)
    case Bool(b) => Some(if b then "True" else "False")
    case Int(i) => Some(IntToString(i))
    case OtherScalar(t) => Some(t)
    case List(t, _) => Some(t)
    case Dict(t, _) => Some(t)
    case Record(t, _) => Some(t)
    case Pair(k, v) => Some("[" + ToString(k).GetOr("") + ", " + ToString(v).GetOr("") + "]")
  }

  /** `value is IEnumerable && value is not string`. */
  predicate IsEnumerable(v: Value) {
    v.List? || v.Dict?
  }

  /** The items `foreach` visits: a list's elements, or a dictionary's entries
      as key/value pairs. */
  function EnumItems(v: Value): (r: seq<Value>)
    ensures v.List? ==> r == v.items
    ensures v.Dict? ==> |r| == |v.entries| && forall k :: 0 <= k < |r| ==> r[k] == Pair(v.entries[k].key, v.entries[k].value)
    ensures !IsEnumerable(v) ==> r == []
  {
    match v
    case List(_, items) => items
    case Dict(_, entries) => seq(|entries|, k requires 0 <= k < |entries| => Pair(entries[k].key, entries[k].value))
    case _ => []
  }

  /** A key/value pair has exactly the properties Key and Value. */
  lemma PairProps(k: Value, v: Value, name: string)
    ensures GetProp(Pair(k, v), name) == if name == "Key" then Some(k) else if name == "Value" then Some(v) else None
  {
    var ps := PublicProps(Pair(k, v));
    assert ps[1..] == [Property("Value", v)];
    assert ps[1..][1..] == [];
    assert FindProp(ps[1..][1..], name) == None;
    assert FindProp(ps[1..], name) == if name == "Value" then Some(v) else None;
    assert GetProp(Pair(k, v), name) == FindProp(ps, name);
  }

  /** KeyValuePair.ToString(): the key and the value in brackets, separated
      by a comma, a null one written as nothing. */
  lemma PairText(k: Value, v: Value)
    ensures ToString(Pair(k, v)).value ==
            "[" + (if k.Null? then "" else ToString(k).value) + ", " + (if v.Null? then "" else ToString(v).value) + "]"
    ensures ToString(Pair(Str("a"), Int(1))) == Some("[a, 1]")
  {
    assert NatToString(1) == "1";
    assert ToString(Int(1)) == Some("1");
    assert ToString(Str("a")) == Some("a");
    assert ToString(Pair(Str("a"), Int(1))).value == "[" + "a" + ", " + "1" + "]";
    assert "[" + "a" + ", " + "1" + "]" == "[a, 1]";
  }
}
