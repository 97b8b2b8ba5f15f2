/** Record trees: what a JSON document or an audit record is made of. */
module Nodes {
  import opened Wrappers
  import opened Numbers

  datatype Key = Name(name: string) | Other(id: nat)

  datatype Node =
    | Null
    | Bool(truth: bool)
    | Int(integer: int)
    | Float(number: Number)
    | Str(text: string)
    | Enum(value: Node)
    | List(items: seq<Node>)
    | Tuple(items: seq<Node>)
    | Dict(entries: seq<(Key, Node)>)

  /** The value under a name, as `dict.get` gives it; the keys of a dict are distinct. */
  function Get(entries: seq<(Key, Node)>, name: string): Option<Node> {
    if entries == [] then None
    else if entries[0].0 == Name(name) then Some(entries[0].1)
    else Get(entries[1..], name)
  }

  function KeySet(entries: seq<(Key, Node)>): set<Key> {
    set i | 0 <= i < |entries| :: entries[i].0
  }

  lemma {:induction false} GetAt(entries: seq<(Key, Node)>, name: string, k: nat)
    requires k < |entries| && entries[k].0 == Name(name) && forall j :: 0 <= j < k ==> entries[j].0 != Name(name)
    ensures Get(entries, name) == Some(entries[k].1)
  {
    if k > 0 {
      GetAt(entries[1..], name, k - 1);
    }
  }

  lemma {:induction false} GetMissing(entries: seq<(Key, Node)>, name: string)
    requires forall i :: 0 <= i < |entries| ==> entries[i].0 != Name(name)
    ensures Get(entries, name) == None
  {
    if entries != [] {
      GetMissing(entries[1..], name);
    }
  }

  lemma {:induction false} GetOfTwo(a: seq<(Key, Node)>, b: seq<(Key, Node)>, name: string)
    ensures Get(a + b, name) == if Get(a, name).Some? then Get(a, name) else Get(b, name)
  {
    if a == [] {
      assert a + b == b;
    } else {
      assert (a + b)[1..] == a[1..] + b;
      GetOfTwo(a[1..], b, name);
    }
  }
}
