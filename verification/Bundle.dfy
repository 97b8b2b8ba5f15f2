/** The layers of a profile, merged into the bundle a request is sanitised with. */
module Bundle {
  import opened Wrappers
  import opened Dedup
  import opened Seqs
  import Policy

  type Rule = nat

  datatype Layer = Layer(id: string, detectors: seq<string>, rules: seq<Rule>, terms: map<string, string>,
                         allowed: seq<string>, policy: Policy.Knobs)

  /** A registry: how a detector is built by name. */
  type Registry<!D> = string -> Option<D>

  datatype Bundle<D> = Bundle(detectors: seq<D>, names: seq<string>, rules: seq<Rule>,
                              terms: Option<map<string, string>>, allowed: seq<string>,
                              policy: Policy.Knobs, ids: seq<string>)

  datatype Refusal = NoLayers | UnknownDetector(name: string)

  // ---- the parts

  function Listed(lists: seq<seq<string>>): seq<string> {
    if lists == [] then [] else Fresh(Listed(lists[..|lists| - 1]), lists[|lists| - 1])
  }

  method ListAll(lists: seq<seq<string>>) returns (all: seq<string>)
    ensures all == Listed(lists)
  {
    all := [];
    var seen: set<string> := {};
    for k := 0 to |lists|
      invariant all == Listed(lists[..k])
      invariant forall x :: x in all <==> x in seen
    {
      assert lists[..k + 1][..k] == lists[..k];
      all, seen := Extend(all, seen, lists[k]);
    }
    assert lists[..|lists|] == lists;
  }

  lemma {:induction false} ListedHolds(lists: seq<seq<string>>)
    ensures Distinct(Listed(lists))
    ensures forall x :: x in Listed(lists) <==> exists i :: 0 <= i < |lists| && x in lists[i]
  {
    if lists != [] {
      var n := |lists| - 1;
      ListedHolds(lists[..n]);
      FreshLists(Listed(lists[..n]), lists[n]);
    }
  }

  /** The most specific layer that has the term: the last. */
  function Specific(layers: seq<Layer>, term: string): Option<string> {
    if layers == [] then None
    else
      var last := layers[|layers| - 1];
      if term in last.terms then Some(last.terms[term]) else Specific(layers[..|layers| - 1], term)
  }

  /** The terms of the layers from the last to the first, each kept where it is not set yet. */
  method Terms(layers: seq<Layer>) returns (terms: map<string, string>)
    ensures forall t :: t in terms <==> Specific(layers, t).Some?
    ensures forall t :: t in terms ==> Specific(layers, t) == Some(terms[t])
  {
    terms := map[];
    var k := |layers|;
    assert layers[..k] == layers;
    while k > 0
      invariant 0 <= k <= |layers|
      invariant forall t :: t in terms ==> Specific(layers, t) == Some(terms[t])
      invariant forall t :: t !in terms ==> Specific(layers, t) == Specific(layers[..k], t)
    {
      k := k - 1;
      assert layers[..k + 1][..k] == layers[..k];
      terms := layers[k].terms + terms;
    }
    assert layers[..0] == [];
  }

  lemma {:induction false} SpecificIsLast(layers: seq<Layer>, term: string)
    ensures Specific(layers, term).None? <==> forall i :: 0 <= i < |layers| ==> term !in layers[i].terms
    ensures Specific(layers, term).Some? ==>
      exists i :: 0 <= i < |layers| && term in layers[i].terms && layers[i].terms[term] == Specific(layers, term).value
        && forall j :: i < j < |layers| ==> term !in layers[j].terms
  {
    if layers != [] {
      SpecificIsLast(layers[..|layers| - 1], term);
    }
  }

  /** The detectors named, each built once, in the order of their names. */
  method BuildDetectors<D>(registry: Registry<D>, names: seq<string>) returns (r: Result<seq<D>, Refusal>)
    ensures r.Err? <==> exists i :: 0 <= i < |names| && registry(names[i]).None?
    ensures r.Err? ==> r.error.UnknownDetector? && r.error.name in names && registry(r.error.name).None?
    ensures r.Ok? ==> Aligned(registry, Fresh([], names), r.value)
  {
    var out: seq<D> := [];
    var seen: set<string> := {};
    for i := 0 to |names|
      invariant forall j :: 0 <= j < i ==> registry(names[j]).Some?
      invariant forall x :: x in Fresh([], names[..i]) <==> x in seen
      invariant Aligned(registry, Fresh([], names[..i]), out)
    {
      assert names[..i + 1][..i] == names[..i];
      FreshLists([], names[..i]);
      if names[i] !in seen {
        var built := registry(names[i]);
        if built.None? {
          return Err(UnknownDetector(names[i]));
        }
        seen := seen + {names[i]};
        out := out + [built.value];
      } else {
        assert names[i] in names[..i];
      }
    }
    assert names[..|names|] == names;
    return Ok(out);
  }

  /** The detector at a place is the one of the name at that place. */
  ghost predicate Aligned<D>(registry: Registry<D>, names: seq<string>, detectors: seq<D>) {
    |names| == |detectors| && forall i :: 0 <= i < |names| ==> registry(names[i]) == Some(detectors[i])
  }

  lemma {:induction false} FreshOfDistinct(names: seq<string>)
    requires Distinct(names)
    ensures Fresh([], names) == names
  {
    if names != [] {
      var n := |names| - 1;
      FreshOfDistinct(names[..n]);
      assert names == names[..n] + [names[n]];
    }
  }

  // ---- the bundle

  function Detectors(layers: seq<Layer>): seq<seq<string>> {
    seq(|layers|, i requires 0 <= i < |layers| => layers[i].detectors)
  }

  function Allowed(layers: seq<Layer>): seq<seq<string>> {
    seq(|layers|, i requires 0 <= i < |layers| => layers[i].allowed)
  }

  function Policies(layers: seq<Layer>): seq<Policy.Knobs> {
    seq(|layers|, i requires 0 <= i < |layers| => layers[i].policy)
  }

  function Ids(layers: seq<Layer>): seq<string> {
    seq(|layers|, i requires 0 <= i < |layers| => layers[i].id)
  }

  function Rules(layers: seq<Layer>): seq<Rule> {
    if layers == [] then [] else Rules(layers[..|layers| - 1]) + layers[|layers| - 1].rules
  }

  function RuleLists(layers: seq<Layer>): seq<seq<Rule>> {
    seq(|layers|, i requires 0 <= i < |layers| => layers[i].rules)
  }

  /** All the rules of all the layers, in the order of the layers. */
  lemma {:induction false} RulesInOrder(layers: seq<Layer>)
    ensures Rules(layers) == Concat(RuleLists(layers))
  {
    if layers != [] {
      var n := |layers| - 1;
      RulesInOrder(layers[..n]);
      assert RuleLists(layers) == RuleLists(layers[..n]) + [layers[n].rules];
      ConcatAppends(RuleLists(layers[..n]), [layers[n].rules]);
      ConcatCons(layers[n].rules, []);
      assert [layers[n].rules] + [] == [layers[n].rules];
    }
  }

  method BuildBundle<D>(registry: Registry<D>, read: Policy.Reader, layers: seq<Layer>)
    returns (r: Result<Bundle<D>, Refusal>)
    ensures r.Err? <==>
      layers == [] || exists i :: 0 <= i < |Listed(Detectors(layers))| && registry(Listed(Detectors(layers))[i]).None?
    ensures r.Ok? ==> r.value.names == Listed(Detectors(layers)) && Aligned(registry, r.value.names, r.value.detectors)
    ensures r.Ok? ==> r.value.rules == Rules(layers) && r.value.allowed == Listed(Allowed(layers))
    ensures r.Ok? ==> r.value.policy == Policy.Merge(read, Policies(layers)) && r.value.ids == Ids(layers)
    ensures r.Ok? ==> forall t ::
      (if r.value.terms.Some? && t in r.value.terms.value then Some(r.value.terms.value[t]) else None)
      == Specific(layers, t)
  {
    if layers == [] {
      return Err(NoLayers);
    }
    var names := ListAll(Detectors(layers));
    var terms := Terms(layers);
    var allowed := ListAll(Allowed(layers));
    var detectors := BuildDetectors(registry, names);
    if detectors.Err? {
      return Err(detectors.error);
    }
    ListedHolds(Detectors(layers));
    FreshOfDistinct(names);
    var policy := Policy.MergeLayers(read, Policies(layers));
    var listed := if terms == map[] then None else Some(terms);
    r := Ok(Bundle(detectors.value, names, Rules(layers), listed, allowed, policy, Ids(layers)));
  }

  // ---- what one more layer does

  lemma {:induction false} SpecificAppends(xs: seq<Layer>, ys: seq<Layer>, t: string)
    ensures Specific(xs + ys, t) == if Specific(ys, t).Some? then Specific(ys, t) else Specific(xs, t)
    decreases |ys|
  {
    if ys == [] {
      assert xs + ys == xs;
    } else {
      var n := |ys| - 1;
      assert (xs + ys)[..|xs + ys| - 1] == xs + ys[..n];
      SpecificAppends(xs, ys[..n], t);
    }
  }

  /** A term keeps its label unless the layer has the term and no more specific one does. */
  lemma {:induction false} TermsWithOneMore(xs: seq<Layer>, a: Layer, ys: seq<Layer>, t: string)
    ensures Specific(xs + ys, t).Some? ==> Specific(xs + [a] + ys, t).Some?
    ensures t in a.terms && Specific(ys, t).None? ==> Specific(xs + [a] + ys, t) == Some(a.terms[t])
    ensures t !in a.terms || Specific(ys, t).Some? ==> Specific(xs + [a] + ys, t) == Specific(xs + ys, t)
  {
    SpecificAppends(xs + [a], ys, t);
    SpecificAppends(xs, [a], t);
    SpecificAppends(xs, ys, t);
    assert [a][..0] == [];
  }

  lemma {:induction false} ListedWithOneMore(lists: seq<seq<string>>, some: seq<seq<string>>, one: seq<string>, k: nat)
    requires k <= |some| && lists == some[..k] + [one] + some[k..]
    ensures forall x :: x in Listed(lists) <==> x in Listed(some) || x in one
  {
    ListedHolds(lists);
    ListedHolds(some);
    assert lists[k] == one;
    assert forall i :: 0 <= i < k ==> some[i] == lists[i];
    assert forall i :: k <= i < |some| ==> some[i] == lists[i + 1];
    assert forall i :: 0 <= i < |lists| && i != k ==> lists[i] == some[if i < k then i else i - 1];
  }

  lemma {:induction false} RulesAppend(xs: seq<Layer>, ys: seq<Layer>)
    ensures Rules(xs + ys) == Rules(xs) + Rules(ys)
    decreases |ys|
  {
    if ys == [] {
      assert xs + ys == xs;
    } else {
      var n := |ys| - 1;
      assert (xs + ys)[..|xs + ys| - 1] == xs + ys[..n];
      RulesAppend(xs, ys[..n]);
      Assoc(Rules(xs), Rules(ys[..n]), ys[n].rules);
    }
  }

  /** One more layer, anywhere: its detectors, rules and allow-list are added, none is taken
      away, the order of the rules stays, and the policy loosens nothing. The allow-list grows
      as well, so what is redacted need not. */
  lemma {:induction false} OneMoreLayer(read: Policy.Reader, xs: seq<Layer>, a: Layer, ys: seq<Layer>)
    requires Policy.Sane(read) && xs + ys != []
    ensures forall d :: d in Listed(Detectors(xs + [a] + ys)) <==> d in Listed(Detectors(xs + ys)) || d in a.detectors
    ensures forall w :: w in Listed(Allowed(xs + [a] + ys)) <==> w in Listed(Allowed(xs + ys)) || w in a.allowed
    ensures Rules(xs + [a] + ys) == Rules(xs) + a.rules + Rules(ys) && Rules(xs + ys) == Rules(xs) + Rules(ys)
    ensures Policy.AtLeastAsStrict(read, Policy.Merge(read, Policies(xs + [a] + ys)),
      Policy.Merge(read, Policies(xs + ys)))
  {
    var k := |xs|;
    var more, some := xs + [a] + ys, xs + ys;
    assert Detectors(more) == Detectors(some)[..k] + [a.detectors] + Detectors(some)[k..];
    ListedWithOneMore(Detectors(more), Detectors(some), a.detectors, k);
    assert Allowed(more) == Allowed(some)[..k] + [a.allowed] + Allowed(some)[k..];
    ListedWithOneMore(Allowed(more), Allowed(some), a.allowed, k);
    RulesWithOneMore(xs, a, ys);
    assert Policies(more) == Policies(xs) + [a.policy] + Policies(ys);
    assert Policies(some) == Policies(xs) + Policies(ys);
    Policy.AddingALayerTightens(read, Policies(xs), a.policy, Policies(ys));
  }

  lemma {:induction false} RulesWithOneMore(xs: seq<Layer>, a: Layer, ys: seq<Layer>)
    ensures Rules(xs + [a] + ys) == Rules(xs) + a.rules + Rules(ys) && Rules(xs + ys) == Rules(xs) + Rules(ys)
  {
    RulesAppend(xs + [a], ys);
    RulesAppend(xs, [a]);
    RulesAppend(xs, ys);
    assert [a][..0] == [];
    assert [] + a.rules == a.rules;
  }
}
