/** YAML mappings: insertion-ordered, with keys that need not be strings. */
module Mappings {
  import opened Wrappers
  import opened Strings

  datatype Key = Name(name: string) | OtherKey(id: int)

  datatype Value = Null | Bool(flag: bool) | Number(number: int) | Text(text: string)
                 | Items(items: seq<Value>) | Table(table: Pairs)

  /** The keys in order, and what they map to. */
  datatype Pairs = Pairs(order: seq<Key>, content: map<Key, Value>)
  {
    ghost predicate Valid() {
      && (forall i, j :: 0 <= i < j < |order| ==> order[i] != order[j])
      && (forall k :: k in order <==> k in content)
    }

    function At(key: Key): Option<Value> { if key in content then Some(content[key]) else None }

    function Get(name: string): Option<Value> { At(Name(name)) }
  }

  const EMPTY := Pairs([], map[])

  type Mapping = m: Pairs | m.Valid() ghost witness EMPTY

  /** A new key goes to the end, a known one keeps its position. */
  function Insert(m: Pairs, key: Key, value: Value): (r: Pairs)
    ensures r.content == m.content[key := value]
    ensures m.Valid() ==> r.Valid()
  {
    Pairs(if key in m.content then m.order else m.order + [key], m.content[key := value])
  }

  function Missing(keys: seq<Key>, m: Pairs): (missing: seq<Key>)
    ensures forall k :: k in missing <==> k in keys && k !in m.content
    ensures (forall i, j :: 0 <= i < j < |keys| ==> keys[i] != keys[j]) ==>
              forall i, j :: 0 <= i < j < |missing| ==> missing[i] != missing[j]
  {
    if keys == [] then []
    else
      var rest := Missing(keys[1..], m);
      if keys[0] in m.content then rest else [keys[0]] + rest
  }

  /** `extend`: every entry of the other mapping is inserted. */
  function Extend(m: Pairs, other: Pairs): (r: Pairs)
    ensures r.content == m.content + other.content
    ensures m.Valid() && other.Valid() ==> r.Valid()
  {
    var missing := Missing(other.order, m);
    assert m.Valid() && other.Valid() ==> Pairs(m.order + missing, m.content + other.content).Valid() by {
      if m.Valid() && other.Valid() {
        Joined(m.order, missing);
      }
    }
    Pairs(m.order + missing, m.content + other.content)
  }

  lemma Joined(a: seq<Key>, b: seq<Key>)
    requires forall i, j :: 0 <= i < j < |a| ==> a[i] != a[j]
    requires forall i, j :: 0 <= i < j < |b| ==> b[i] != b[j]
    requires forall k :: k in a ==> k !in b
    ensures forall i, j :: 0 <= i < j < |a + b| ==> (a + b)[i] != (a + b)[j]
  {
    assert forall i :: 0 <= i < |a| ==> (a + b)[i] in a;
    assert forall i :: |a| <= i < |a + b| ==> (a + b)[i] == b[i - |a|] && (a + b)[i] in b;
  }

  /** Taking a key out moves the last one into its position. */
  function Remove(m: Mapping, key: Key): (r: Mapping)
    ensures r.content == m.content - {key}
  {
    if key !in m.content then Pairs(m.order, m.content - {key})
    else
      var i := Position(m.order, key);
      var last := |m.order| - 1;
      var order := m.order[i := m.order[last]][..last];
      assert forall k :: k in order <==> k in m.order && k != key by {
        forall k | k in m.order && k != key
          ensures k in order
        {
          var j := Position(m.order, k);
          assert j < last ==> order[j] == k;
          assert j == last ==> order[i] == k;
        }
      }
      Pairs(order, m.content - {key})
  }

  function Position(keys: seq<Key>, key: Key): (i: nat)
    requires key in keys
    ensures i < |keys| && keys[i] == key
  {
    if keys[0] == key then 0 else 1 + Position(keys[1..], key)
  }

  function Lower(s: string): (r: string)
    ensures |r| == |s| && forall i :: 0 <= i < |s| ==> r[i] == LowerAscii(s[i])
  {
    if s == [] then [] else [LowerAscii(s[0])] + Lower(s[1..])
  }
}
