/** `LruCache`: an ordered dictionary whose oldest entries are dropped. */
module Lru {
  import opened Wrappers

  // ---- Recency ----

  function Without<K(==)>(s: seq<K>, k: K): seq<K> {
    if s == [] then [] else (if s[0] == k then [] else [s[0]]) + Without(s[1..], k)
  }

  ghost predicate Distinct<K>(s: seq<K>) {
    forall i, j :: 0 <= i < j < |s| ==> s[i] != s[j]
  }

  lemma {:induction false} WithoutAppend<K>(a: seq<K>, b: seq<K>, k: K)
    ensures Without(a + b, k) == Without(a, k) + Without(b, k)
  {
    if a == [] {
      assert a + b == b;
    } else {
      assert (a + b)[1..] == a[1..] + b;
      WithoutAppend(a[1..], b, k);
    }
  }

  lemma {:induction false} WithoutAbsent<K>(s: seq<K>, k: K)
    requires k !in s
    ensures Without(s, k) == s
  {
    if s == [] {
    } else {
      WithoutAbsent(s[1..], k);
    }
  }

  lemma {:induction false} WithoutMembers<K>(s: seq<K>, k: K)
    ensures forall x :: x in Without(s, k) <==> x in s && x != k
    ensures |Without(s, k)| <= |s|
  {
    if s == [] {
    } else {
      WithoutMembers(s[1..], k);
      assert forall x :: x in s <==> x == s[0] || x in s[1..];
    }
  }

  lemma {:induction false} WithoutDistinct<K>(s: seq<K>, k: K)
    requires Distinct(s)
    ensures Distinct(Without(s, k))
    ensures |Without(s, k)| == if k in s then |s| - 1 else |s|
  {
    if s == [] {
    } else {
      WithoutDistinct(s[1..], k);
      WithoutMembers(s[1..], k);
      assert s[0] !in s[1..];
    }
  }

  datatype Touch<K, V> = Set(key: K, value: V) | Hit(key: K) | Deleted(key: K)

  /** The keys set or hit and not deleted since, least recent first. */
  function Recent<K(==), V>(touches: seq<Touch<K, V>>): seq<K> {
    if touches == [] then []
    else
      var before, last := Recent(touches[..|touches| - 1]), touches[|touches| - 1];
      Without(before, last.key) + if last.Deleted? then [] else [last.key]
  }

  predicate NoneDeleted<K, V>(touches: seq<Touch<K, V>>) {
    touches == [] || (NoneDeleted(touches[..|touches| - 1]) && !touches[|touches| - 1].Deleted?)
  }

  /** The values as last set. */
  function Latest<K, V>(touches: seq<Touch<K, V>>): map<K, V> {
    if touches == [] then map[]
    else
      var before, last := Latest(touches[..|touches| - 1]), touches[|touches| - 1];
      if last.Set? then before[last.key := last.value] else before
  }

  lemma {:induction false} RecentDistinct<K, V>(touches: seq<Touch<K, V>>)
    ensures Distinct(Recent(touches))
  {
    if touches == [] {
    } else {
      var before, k := touches[..|touches| - 1], touches[|touches| - 1].key;
      RecentDistinct(before);
      WithoutDistinct(Recent(before), k);
      WithoutMembers(Recent(before), k);
    }
  }

  ghost predicate Suffix<K>(s: seq<K>, t: seq<K>) {
    s == t || (t != [] && Suffix(s, t[1..]))
  }

  /** Moving or dropping a key keeps the last part of a list its last part. */
  lemma {:induction false} SuffixWithout<K>(s: seq<K>, t: seq<K>, k: K, tail: seq<K>)
    requires Suffix(s, t)
    ensures Suffix(Without(s, k) + tail, Without(t, k) + tail)
  {
    if s == t {
    } else {
      SuffixWithout(s, t[1..], k, tail);
      var rest := Without(t[1..], k);
      if t[0] == k {
        assert Without(t, k) == [] + rest == rest;
      } else {
        assert Without(t, k) == [t[0]] + rest;
        assert ([t[0]] + rest + tail)[1..] == rest + tail;
      }
    }
  }

  lemma {:induction false} SuffixEnd<K>(s: seq<K>, t: seq<K>)
    requires Suffix(s, t)
    ensures |s| <= |t| && (|s| == |t| ==> s == t)
    ensures s != [] ==> s[|s| - 1] == t[|t| - 1]
  {
    if s == t {
    } else {
      SuffixEnd(s, t[1..]);
    }
  }

  lemma {:induction false} SuffixMember<K>(s: seq<K>, t: seq<K>, x: K)
    requires Suffix(s, t) && x in s
    ensures x in t
  {
    if s == t {
    } else {
      SuffixMember(s, t[1..], x);
    }
  }

  lemma {:induction false} SuffixSlice<K>(s: seq<K>, t: seq<K>)
    requires Suffix(s, t)
    ensures |s| <= |t| && t[|t| - |s|..] == s
  {
    if s == t {
    } else {
      SuffixSlice(s, t[1..]);
    }
  }

  lemma {:induction false} SuffixChain<K>(s: seq<K>, t: seq<K>, u: seq<K>)
    requires Suffix(s, t) && Suffix(t, u)
    ensures Suffix(s, u)
  {
    if t == u {
    } else {
      SuffixChain(s, t, u[1..]);
    }
  }

  class LruCache<K(==,!new), V(!new)> {
    const maxsize: nat
    var keys: seq<K>               // oldest first
    var dict: map<K, V>
    ghost var touches: seq<Touch<K, V>>

    ghost predicate DictValid()
      reads `keys, `dict
    {
      Distinct(keys) && (forall k :: k in keys <==> k in dict)
    }

    ghost predicate Valid()
      reads `keys, `dict, `touches
    {
      && DictValid() && |keys| <= maxsize
      && Suffix(keys, Recent(touches))
      && (forall k :: k in dict ==> k in Latest(touches) && dict[k] == Latest(touches)[k])
      && (NoneDeleted(touches) ==> |keys| == maxsize || |keys| == |Recent(touches)|)
    }

    constructor (maxsize: nat)
      requires maxsize > 0
      ensures Valid() && this.maxsize == maxsize && dict == map[] && touches == []
    {
      this.maxsize, keys, dict, touches := maxsize, [], map[], [];
    }

    /** `move_to_end`. */
    method MoveToEnd(k: K)
      requires DictValid() && k in keys
      modifies `keys
      ensures DictValid() && keys == Without(old(keys), k) + [k] && |keys| == |old(keys)|
    {
      WithoutDistinct(keys, k);
      WithoutMembers(keys, k);
      keys := Without(keys, k) + [k];
    }

    ghost method Touched(t: Touch<K, V>)
      requires Suffix(keys, Recent(touches))
      modifies `touches
      ensures touches == old(touches) + [t]
      ensures Recent(touches) == Without(old(Recent(touches)), t.key) + if t.Deleted? then [] else [t.key]
      ensures Latest(touches) == if t.Set? then old(Latest(touches))[t.key := t.value] else old(Latest(touches))
      ensures NoneDeleted(touches) == (old(NoneDeleted(touches)) && !t.Deleted?)
      ensures Suffix(Without(keys, t.key) + (if t.Deleted? then [] else [t.key]), Recent(touches))
      ensures |Recent(touches)| == old(|Recent(touches)|) + (if t.key in old(Recent(touches)) then -1 else 0)
                                   + (if t.Deleted? then 0 else 1)
    {
      assert (touches + [t])[..|touches|] == touches;
      SuffixWithout(keys, Recent(touches), t.key, if t.Deleted? then [] else [t.key]);
      RecentDistinct(touches);
      WithoutDistinct(Recent(touches), t.key);
      touches := touches + [t];
    }

    /** `get`: a hit moves the key to the end. */
    method Get(k: K) returns (o: Option<V>)
      requires Valid()
      modifies `keys, `touches
      ensures Valid() && o == if k in old(dict) then Some(old(dict)[k]) else None
      ensures o.Some? ==> o.value == Latest(touches)[k]
      ensures keys == if k in old(dict) then Without(old(keys), k) + [k] else old(keys)
      ensures touches == old(touches) + if k in old(dict) then [Hit(k)] else []
    {
      if k !in dict {
        return None;
      }
      Promote(k);
      return Some(dict[k]);
    }

    /** `__getitem__`; a missing key is a `KeyError`. */
    method GetItem(k: K) returns (found: bool, o: Option<V>)
      requires Valid()
      modifies `keys, `touches
      ensures Valid() && found == (k in old(dict)) && o == if found then Some(old(dict)[k]) else None
      ensures found ==> o.value == Latest(touches)[k]
      ensures keys == if found then Without(old(keys), k) + [k] else old(keys)
      ensures touches == old(touches) + if found then [Hit(k)] else []
    {
      if k !in dict {
        return false, None;
      }
      o := Some(dict[k]);
      Promote(k);
      found := true;
    }

    /** A hit. */
    method Promote(k: K)
      requires Valid() && k in dict
      modifies `keys, `touches
      ensures Valid() && keys == Without(old(keys), k) + [k] && touches == old(touches) + [Hit(k)]
    {
      SuffixMember(keys, Recent(touches), k);
      Touched(Hit(k));
      MoveToEnd(k);
    }

    predicate NeedsCleanup()
      reads `keys
    {
      |keys| > maxsize
    }

    /** `popitem(last=False)`. */
    method CleanupOne()
      requires DictValid() && keys != []
      modifies `keys, `dict
      ensures DictValid() && keys == old(keys)[1..] && dict == old(dict) - {old(keys)[0]}
    {
      assert keys[0] !in keys[1..];
      dict := dict - {keys[0]};
      keys := keys[1..];
    }

    method Cleanup()
      requires DictValid()
      modifies `keys, `dict
      ensures DictValid() && Suffix(keys, old(keys))
      ensures forall k :: k in dict ==> k in old(dict) && dict[k] == old(dict)[k]
      ensures |keys| == if old(|keys|) > maxsize then maxsize else old(|keys|)
    {
      while NeedsCleanup()
        decreases |keys|
        invariant DictValid() && Suffix(keys, old(keys))
        invariant |keys| >= maxsize || keys == old(keys)
        invariant forall k :: k in dict ==> k in old(dict) && dict[k] == old(dict)[k]
      {
        SuffixChain(keys[1..], keys, old(keys));
        CleanupOne();
      }
    }

    method Put(k: K, o: V)
      requires DictValid()
      modifies `keys, `dict
      ensures DictValid() && dict == old(dict)[k := o] && keys == Without(old(keys), k) + [k]
      ensures |keys| == old(|keys|) + if k in old(dict) then 0 else 1
    {
      if k in dict {
        dict := dict[k := o];
        MoveToEnd(k);
      } else {
        WithoutAbsent(keys, k);
        dict := dict[k := o];
        keys := keys + [k];
      }
    }

    /** `__setitem__`: the new entry goes to the end, and the oldest ones make room. */
    method Store(k: K, o: V)
      requires DictValid() && maxsize > 0
      modifies `keys, `dict
      ensures DictValid() && Suffix(keys, Without(old(keys), k) + [k]) && |keys| <= maxsize
      ensures |keys| == maxsize || |keys| == old(|keys|) + if k in old(dict) then 0 else 1
      ensures k in dict && dict[k] == o
      ensures forall x :: x in dict && x != k ==> x in old(dict) && dict[x] == old(dict)[x]
    {
      Put(k, o);
      ghost var all := keys;
      Cleanup();
      SuffixEnd(keys, all);
      assert keys[|keys| - 1] == k;
    }

    method SetItem(k: K, o: V)
      requires Valid() && maxsize > 0
      modifies `keys, `dict, `touches
      ensures Valid() && k in dict && dict[k] == o
      ensures forall x :: x in dict && x != k ==> x in old(dict) && dict[x] == old(dict)[x]
      ensures touches == old(touches) + [Set(k, o)]
    {
      SuffixEnd(keys, Recent(touches));
      Touched(Set(k, o));
      ghost var all := Without(keys, k) + [k];
      Store(k, o);
      SuffixChain(keys, all, Recent(touches));
    }

    /** `__delitem__`; a missing key is a `KeyError`. */
    method DeleteItem(k: K) returns (found: bool)
      requires Valid()
      modifies `keys, `dict, `touches
      ensures Valid() && found == (k in old(dict)) && dict == old(dict) - {k}
      ensures touches == old(touches) + if found then [Deleted(k)] else []
    {
      if k !in dict {
        return false;
      }
      Touched(Deleted(k));
      assert Without(keys, k) + [] == Without(keys, k);
      WithoutDistinct(keys, k);
      WithoutMembers(keys, k);
      keys := Without(keys, k);
      dict := dict - {k};
      return true;
    }
  }

  // ---- What the cache is for ----

  datatype Op<K, V> = SetOp(key: K, value: V) | GetOp(key: K)

  function LastOf<K>(s: seq<K>, n: nat): seq<K> {
    if |s| <= n then s else s[|s| - n..]
  }

  /** The touches of a run: a get counts when its key is among the `maxsize` most recent ones. */
  function Touches<K(==), V>(maxsize: nat, ops: seq<Op<K, V>>): seq<Touch<K, V>> {
    if ops == [] then []
    else
      var before, last := Touches(maxsize, ops[..|ops| - 1]), ops[|ops| - 1];
      match last
      case SetOp(k, v) => before + [Set(k, v)]
      case GetOp(k) => if k in LastOf(Recent(before), maxsize) then before + [Hit(k)] else before
  }

  /** What a get answers after a run: the value last set, if the key is recent enough. */
  function Expected<K(==), V>(maxsize: nat, ops: seq<Op<K, V>>, k: K): Option<V> {
    var touches := Touches(maxsize, ops);
    if k in LastOf(Recent(touches), maxsize) && k in Latest(touches) then Some(Latest(touches)[k]) else None
  }

  /** The answers of a whole run; setting answers nothing. */
  function Answers<K(==), V>(maxsize: nat, ops: seq<Op<K, V>>): seq<Option<V>> {
    if ops == [] then []
    else
      var before, last := ops[..|ops| - 1], ops[|ops| - 1];
      Answers(maxsize, before) + [if last.GetOp? then Expected(maxsize, before, last.key) else None]
  }

  lemma LastOfSuffix<K>(s: seq<K>, t: seq<K>, n: nat)
    requires Suffix(s, t) && |s| <= n && (|s| == n || |s| == |t|)
    ensures s == LastOf(t, n)
  {
    SuffixSlice(s, t);
  }

  method Apply<K(==,!new), V(!new)>(cache: LruCache<K, V>, ghost ops: seq<Op<K, V>>, op: Op<K, V>)
    returns (answer: Option<V>)
    requires cache.Valid() && cache.maxsize > 0
    requires cache.touches == Touches(cache.maxsize, ops) && NoneDeleted(cache.touches)
    modifies cache
    ensures cache.Valid()
    ensures cache.touches == Touches(cache.maxsize, ops + [op]) && NoneDeleted(cache.touches)
    ensures Answers(cache.maxsize, ops + [op]) == Answers(cache.maxsize, ops) + [answer]
  {
    ghost var before := cache.touches;
    LastOfSuffix(cache.keys, Recent(cache.touches), cache.maxsize);
    assert (ops + [op])[..|ops|] == ops;
    match op {
      case SetOp(k, v) =>
        cache.SetItem(k, v);
        answer := None;
      case GetOp(k) =>
        answer := cache.Get(k);
    }
    assert cache.touches != before ==> cache.touches[..|before|] == before;
  }

  /** The cache holds exactly the `maxsize` keys set or hit most recently, or all of them when
      there are fewer, the oldest first, and answers with the value last set. */
  method AnyRun<K(==,!new), V(!new)>(maxsize: int, ops: seq<Op<K, V>>)
    returns (r: Option<LruCache<K, V>>, answers: seq<Option<V>>)
    ensures r.None? <==> maxsize <= 0
    ensures r.Some? ==>
              && r.value.Valid() && r.value.maxsize == maxsize
              && r.value.keys == LastOf(Recent(Touches(maxsize, ops)), maxsize)
              && answers == Answers(maxsize, ops)
  {
    hide Recent, Latest, Without, Suffix, Distinct, LastOf;
    answers := [];
    if maxsize <= 0 {
      return None, [];
    }
    var cache := new LruCache<K, V>(maxsize);
    assert ops[..0] == [];
    for i := 0 to |ops|
      invariant cache.Valid() && cache.maxsize == maxsize && fresh(cache)
      invariant cache.touches == Touches(maxsize, ops[..i]) && NoneDeleted(cache.touches)
      invariant answers == Answers(maxsize, ops[..i])
    {
      var answer := Apply(cache, ops[..i], ops[i]);
      assert ops[..i + 1] == ops[..i] + [ops[i]];
      answers := answers + [answer];
    }
    assert ops[..|ops|] == ops;
    LastOfSuffix(cache.keys, Recent(cache.touches), maxsize);
    return Some(cache), answers;
  }
}
