/**
  Python's OrderedDict as the gateway uses it: a dictionary that remembers the order
  its keys were added in, moved to the end on demand and trimmed from the front.
 */
module OrderedDict {
  import opened Seqs

  type Id = string

  /** The keys of `s` without `k`, in order. */
  function Without(s: seq<Id>, k: Id): (r: seq<Id>)
    ensures forall x :: x in r <==> x in s && x != k
    ensures |r| <= |s|
    ensures k !in s ==> r == s
  {
    if s == [] then []
    else if s[0] == k then Without(s[1..], k)
    else [s[0]] + Without(s[1..], k)
  }

  lemma {:induction false} WithoutDistinct(s: seq<Id>, k: Id)
    requires Distinct(s)
    ensures Distinct(Without(s, k))
    ensures k in s ==> |Without(s, k)| == |s| - 1
  {
    if s != [] {
      WithoutDistinct(s[1..], k);
      assert s[0] !in s[1..];
    }
  }

  datatype Dict<V> = Dict(order: seq<Id>, at: map<Id, V>) {

    ghost predicate Valid() {
      && Distinct(order)
      && forall x :: x in order <==> x in at
    }

    /** `d[k] = v; d.move_to_end(k)` */
    function Put(k: Id, v: V): Dict<V> {
      Dict(Without(order, k) + [k], at[k := v])
    }

    /** `while len(d) > cap: d.popitem(last=False)` */
    function Trim(cap: nat): Dict<V>
      requires Valid()
      decreases |order|
    {
      if |order| > cap then PopFirst().Trim(cap) else this
    }

    function PopFirst(): (d: Dict<V>)
      requires Valid() && order != []
      ensures d.Valid()
    {
      assert order == [order[0]] + order[1..];
      Dict(order[1..], at - {order[0]})
    }

    /** `d.pop(k, None)` */
    function Pop(k: Id): Dict<V> {
      Dict(Without(order, k), at - {k})
    }

    lemma PutValid(k: Id, v: V)
      requires Valid()
      ensures Put(k, v).Valid()
      ensures |Put(k, v).order| == if k in at then |order| else |order| + 1
    {
      WithoutDistinct(order, k);
    }

    /** Adding `k` to a dictionary within its cap keeps `k`, and loses at most the oldest
        key, and that one only when `k` is new and the dictionary was full. */
    lemma PutTrim(k: Id, v: V, cap: nat)
      requires Valid() && 1 <= cap && |order| <= cap
      ensures Put(k, v).Valid()
      ensures var d := Put(k, v).Trim(cap);
              && d.Valid() && |d.order| <= cap
              && k in d.at && d.at[k] == v
              && (forall x :: x in d.at && x != k ==> x in at && d.at[x] == at[x])
              && (forall x :: x in at && x !in d.at ==> k !in at && |order| == cap && x == order[0])
    {
      PutValid(k, v);
      var p := Put(k, v);
      if |p.order| > cap {
        assert p.order[0] == order[0] && p.order[0] != k;
        assert p.Trim(cap) == p.PopFirst();
      }
    }

    lemma PopValid(k: Id)
      requires Valid()
      ensures Pop(k).Valid()
      ensures |Pop(k).order| <= |order|
    {
      WithoutDistinct(order, k);
    }
  }

  // ---- how long a key stays

  /** What stands behind `x` is among `ids`. */
  ghost predicate Behind(order: seq<Id>, x: Id, ids: set<Id>) {
    forall i, j :: 0 <= i < j < |order| && order[i] == x ==> order[j] in ids
  }

  lemma {:induction false} DistinctMany(s: seq<Id>, ids: set<Id>)
    requires Distinct(s) && forall x :: x in s ==> x in ids
    ensures |s| <= |ids|
  {
    if s != [] {
      forall x | x in s[1..]
        ensures x in ids - {s[0]}
      {
      }
      DistinctMany(s[1..], ids - {s[0]});
    }
  }

  lemma {:induction false} WithoutBehind(s: seq<Id>, k: Id, x: Id, ids: set<Id>)
    requires Behind(s, x, ids) && k != x
    ensures Behind(Without(s, k), x, ids)
  {
    if s != [] {
      assert forall i, j :: 0 <= i < j < |s[1..]| ==> s[1..][i] == s[i + 1] && s[1..][j] == s[j + 1];
      WithoutBehind(s[1..], k, x, ids);
      if s[0] == x {
        assert forall y :: y in s[1..] ==> y in ids;
      }
    }
  }

  lemma {:induction false} PopBehind<V>(d: Dict<V>, k: Id, x: Id, ids: set<Id>)
    requires Behind(d.order, x, ids) && k != x
    ensures Behind(d.Pop(k).order, x, ids)
  {
    WithoutBehind(d.order, k, x, ids);
  }

  /** A key just put is the newest. */
  lemma {:induction false} PutIsNewest<V>(d: Dict<V>, x: Id, v: V, cap: nat)
    requires d.Valid() && 1 <= cap && |d.order| <= cap
    ensures d.Put(x, v).Valid()
    ensures Behind(d.Put(x, v).Trim(cap).order, x, {}) && x in d.Put(x, v).Trim(cap).at
  {
    d.PutTrim(x, v, cap);
    d.PutValid(x, v);
    var p := d.Put(x, v);
    assert forall i :: 0 <= i < |p.order| - 1 ==> p.order[i] in Without(d.order, x);
    if |p.order| > cap {
      assert p.Trim(cap) == p.PopFirst();
    }
  }

  lemma {:induction false} PushedOutByMany(order: seq<Id>, k: Id, ids: set<Id>)
    requires Distinct(order) && order != [] && k !in order && Behind(order, order[0], ids)
    ensures |ids + {k}| >= |order|
  {
    var rest := order[1..] + [k];
    forall y | y in rest
      ensures y in ids + {k}
    {
      if y in order[1..] {
        var j :| 0 <= j < |order[1..]| && order[1..][j] == y;
        assert order[j + 1] in ids;
      }
    }
    DistinctMany(rest, ids + {k});
  }

  lemma {:induction false} AppendBehind(s: seq<Id>, k: Id, x: Id, ids: set<Id>)
    requires Behind(s, x, ids)
    ensures k != x ==> Behind(s + [k], x, ids + {k})
    ensures s != [] ==> Behind(s[1..], x, ids)
  {
  }

  /** A key is pushed out by another one only when as many others as the cap came after it. */
  lemma {:induction false} PutBehind<V>(d: Dict<V>, k: Id, v: V, cap: nat, x: Id, ids: set<Id>)
    requires d.Valid() && 1 <= cap && |d.order| <= cap && x in d.at && k != x && Behind(d.order, x, ids)
    ensures d.Put(k, v).Valid()
    ensures var e := d.Put(k, v).Trim(cap);
            if x in e.at then e.at[x] == d.at[x] && Behind(e.order, x, ids + {k}) else |ids + {k}| >= cap
  {
    d.PutTrim(k, v, cap);
    d.PutValid(k, v);
    var p := d.Put(k, v);
    if x !in p.Trim(cap).at {
      PushedOutByMany(d.order, k, ids);
    } else {
      WithoutBehind(d.order, k, x, ids);
      AppendBehind(Without(d.order, k), k, x, ids);
      AppendBehind(p.order, k, x, ids + {k});
      if |p.order| > cap {
        assert p.Trim(cap) == p.PopFirst();
      }
    }
  }
}
