/** A Python dict used as a counter (`d[k] = d.get(k, 0) + 1`): the entries
    in insertion order, each key at most once. */
module PyCounter {

  datatype Entry = Entry(key: string, count: nat)

  type Counter = seq<Entry>

  /** Each key appears in at most one entry. */
  predicate DistinctKeys(c: Counter) {
    forall i, j :: 0 <= i < j < |c| ==> c[i].key != c[j].key
  }

  /** The keys in insertion order. */
  function Keys(c: Counter): (ks: seq<string>)
    ensures |ks| == |c| && forall i :: 0 <= i < |c| ==> ks[i] == c[i].key
  {
    if c == [] then [] else [c[0].key] + Keys(c[1..])
  }

  /** `d.get(key, 0)`. */
  function Get(c: Counter, key: string): nat {
    if c == [] then 0 else if c[0].key == key then c[0].count else Get(c[1..], key)
  }

  /** `d[key] = d.get(key, 0) + 1`: an existing key keeps its place; a new
      key is appended with count 1. */
  function Increment(c: Counter, key: string): Counter {
    if c == [] then [Entry(key, 1)]
    else if c[0].key == key then [Entry(key, c[0].count + 1)] + c[1..]
    else [c[0]] + Increment(c[1..], key)
  }

  /** The sum of all counts. */
  function Total(c: Counter): nat {
    if c == [] then 0 else c[0].count + Total(c[1..])
  }

  /** Incrementing a key adds one to that key's count and to no other. */
  lemma {:induction false} GetIncrement(c: Counter, key: string, other: string)
    ensures Get(Increment(c, key), other) == Get(c, other) + (if other == key then 1 else 0)
  {
    if c != [] && c[0].key != key {
      GetIncrement(c[1..], key, other);
    }
  }

  /** Each increment adds exactly one to the total. */
  lemma {:induction false} TotalIncrement(c: Counter, key: string)
    ensures Total(Increment(c, key)) == Total(c) + 1
  {
    if c != [] && c[0].key != key {
      TotalIncrement(c[1..], key);
    }
  }

  /** A key present in the counter keeps its place; a new one goes last. */
  lemma {:induction false} KeysIncrement(c: Counter, key: string)
    ensures Keys(Increment(c, key)) == if key in Keys(c) then Keys(c) else Keys(c) + [key]
  {
    if c != [] && c[0].key != key {
      KeysIncrement(c[1..], key);
      assert Keys(c) == [c[0].key] + Keys(c[1..]);
      assert key in Keys(c) <==> key in Keys(c[1..]);
    } else if c != [] {
      assert Keys(c) == [c[0].key] + Keys(c[1..]);
    }
  }

  /** Incrementing keeps the keys distinct. */
  lemma DistinctIncrement(c: Counter, key: string)
    requires DistinctKeys(c)
    ensures DistinctKeys(Increment(c, key))
  {
    KeysIncrement(c, key);
    var d := Increment(c, key);
    forall i, j | 0 <= i < j < |d|
      ensures d[i].key != d[j].key
    {
      assert Keys(d)[i] == d[i].key && Keys(d)[j] == d[j].key;
      if key !in Keys(c) && j == |c| {
        assert Keys(d)[i] == Keys(c)[i];
      } else {
        assert Keys(d)[i] == Keys(c)[i] && Keys(d)[j] == Keys(c)[j];
      }
    }
  }

  /** A key with a non-zero count is present. */
  lemma {:induction false} GetPositiveMeansKey(c: Counter, key: string)
    requires Get(c, key) > 0
    ensures key in Keys(c)
  {
    if c[0].key != key {
      GetPositiveMeansKey(c[1..], key);
    }
  }
}
