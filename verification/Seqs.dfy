/** The few facts about sequences the models share. */
module Seqs {

  ghost predicate Distinct<T>(s: seq<T>) {
    forall i, j :: 0 <= i < j < |s| ==> s[i] != s[j]
  }

  lemma {:induction false} Assoc<T>(a: seq<T>, b: seq<T>, c: seq<T>)
    ensures (a + b) + c == a + (b + c)
  {
  }

  function Concat<T>(parts: seq<seq<T>>): seq<T> {
    if parts == [] then [] else parts[0] + Concat(parts[1..])
  }

  lemma {:induction false} ConcatCons<T>(part: seq<T>, parts: seq<seq<T>>)
    ensures Concat([part] + parts) == part + Concat(parts)
  {
    assert ([part] + parts)[1..] == parts;
  }

  lemma {:induction false} ConcatAppends<T>(a: seq<seq<T>>, b: seq<seq<T>>)
    ensures Concat(a + b) == Concat(a) + Concat(b)
  {
    if a == [] {
      assert a + b == b;
    } else {
      calc {
        Concat(a + b);
        { assert a + b == [a[0]] + (a[1..] + b); ConcatCons(a[0], a[1..] + b); }
        a[0] + Concat(a[1..] + b);
        { ConcatAppends(a[1..], b); }
        a[0] + (Concat(a[1..]) + Concat(b));
        { Assoc(a[0], Concat(a[1..]), Concat(b)); }
        Concat(a) + Concat(b);
      }
    }
  }
}
