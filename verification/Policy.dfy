/**
  Policy knobs, layer over layer. The merge is the join of an order of strictness: no layer
  added anywhere loosens it, and grouping layers does not change it.
 */
module Policy {
  import opened Wrappers
  import opened Dedup
  import opened Seqs

  datatype FailPolicy = Continue | FailClosed

  datatype FailPolicies = FailPolicies(prePassDown: FailPolicy, auditSinkDown: FailPolicy, auditBufferFull: FailPolicy)

  datatype Knobs = Knobs(
    sizeThreshold: int, blockPayloads: bool, dlpGuard: bool, oracleMode: string,
    allowedProviders: Option<set<string>>, canaries: seq<string>, failPolicy: FailPolicies,
    hotDays: Option<int>, coldYears: Option<int>)

  const DEFAULT_THRESHOLD_BYTES: int := 100 * 1024

  const DEFAULTS: Knobs := Knobs(DEFAULT_THRESHOLD_BYTES, false, false, "gazetteer_hit", None, [],
                          FailPolicies(Continue, Continue, FailClosed), None, None)

  // ---- the oracle mode

  /** A mode read: the part before the colon, stripped and folded, and the number after it. */
  datatype Reading = Reading(head: string, number: Option<int>)

  /** How a mode is read; a parameter. */
  type Reader = string -> Reading

  predicate Sane(read: Reader) {
    read("always").head == "always" && read("gazetteer_hit").head == "gazetteer_hit"
  }

  function SampledPct(read: Reader, mode: string): Option<int> {
    if read(mode).head == "sampled" then read(mode).number else None
  }

  function Canonical(read: Reader, mode: string): string {
    var pct := SampledPct(read, mode);
    if pct.None? then mode
    else if pct.value >= 100 then "always"
    else if pct.value <= 0 then "gazetteer_hit"
    else mode
  }

  function Rank(read: Reader, mode: string): int {
    var head := read(Canonical(read, mode)).head;
    if head == "gazetteer_hit" then 0
    else if head == "sampled" then 1
    else if head == "any_local_finding" then 2
    else if head == "always" then 3
    else -1
  }

  function Pct(read: Reader, mode: string): int {
    var pct := SampledPct(read, mode);
    if pct.None? then 0 else pct.value
  }

  /** `b` covers strictly more than `a`. */
  predicate Narrower(read: Reader, a: string, b: string) {
    Rank(read, a) < Rank(read, b) || (Rank(read, a) == Rank(read, b) && Pct(read, a) < Pct(read, b))
  }

  function Wider(read: Reader, a: string, b: string): string { if Narrower(read, a, b) then b else a }

  /** The widest of the modes, the first of them where several cover as much. */
  function Broadest(read: Reader, layers: seq<Knobs>): string {
    if layers == [] then "gazetteer_hit"
    else if |layers| == 1 then Canonical(read, layers[0].oracleMode)
    else Wider(read, Broadest(read, layers[..|layers| - 1]), Canonical(read, layers[|layers| - 1].oracleMode))
  }

  // ---- the other knobs, each over the layers

  function Min(a: int, b: int): int { if b < a then b else a }

  function Smallest(layers: seq<Knobs>): int
    requires layers != []
  {
    var n := |layers| - 1;
    if n == 0 then layers[0].sizeThreshold else Min(Smallest(layers[..n]), layers[n].sizeThreshold)
  }

  predicate AnyBlocks(layers: seq<Knobs>) { exists i :: 0 <= i < |layers| && layers[i].blockPayloads }

  predicate AnyGuards(layers: seq<Knobs>) { exists i :: 0 <= i < |layers| && layers[i].dlpGuard }

  function Meet(a: Option<set<string>>, b: Option<set<string>>): Option<set<string>> {
    if b.None? then a else if a.None? then b else Some(a.value * b.value)
  }

  function Providers(layers: seq<Knobs>): Option<set<string>> {
    if layers == [] then None else Meet(Providers(layers[..|layers| - 1]), layers[|layers| - 1].allowedProviders)
  }

  method IntersectProviders(layers: seq<Knobs>) returns (providers: Option<set<string>>)
    ensures providers == Providers(layers)
  {
    providers := None;
    for k := 0 to |layers|
      invariant providers == Providers(layers[..k])
    {
      assert layers[..k + 1][..k] == layers[..k];
      if layers[k].allowedProviders.Some? {
        providers := if providers.None? then layers[k].allowedProviders
                     else Some(providers.value * layers[k].allowedProviders.value);
      }
    }
    assert layers[..|layers|] == layers;
  }

  function Canaries(layers: seq<Knobs>): seq<string> {
    if layers == [] then [] else Fresh(Canaries(layers[..|layers| - 1]), layers[|layers| - 1].canaries)
  }

  method UnionCanaries(layers: seq<Knobs>) returns (canaries: seq<string>)
    ensures canaries == Canaries(layers)
  {
    canaries := [];
    var seen: set<string> := {};
    for k := 0 to |layers|
      invariant canaries == Canaries(layers[..k])
      invariant forall p :: p in canaries <==> p in seen
    {
      assert layers[..k + 1][..k] == layers[..k];
      canaries, seen := Extend(canaries, seen, layers[k].canaries);
    }
    assert layers[..|layers|] == layers;
  }

  function Closer(a: FailPolicy, b: FailPolicy): FailPolicy {
    if a.FailClosed? || b.FailClosed? then FailClosed else Continue
  }

  function ClosestOf(a: FailPolicies, b: FailPolicies): FailPolicies {
    FailPolicies(Closer(a.prePassDown, b.prePassDown), Closer(a.auditSinkDown, b.auditSinkDown),
                 Closer(a.auditBufferFull, b.auditBufferFull))
  }

  function Closest(layers: seq<Knobs>): FailPolicies {
    if layers == [] then FailPolicies(Continue, Continue, Continue)
    else ClosestOf(Closest(layers[..|layers| - 1]), layers[|layers| - 1].failPolicy)
  }

  method MergeFailPolicy(layers: seq<Knobs>) returns (policy: FailPolicies)
    ensures policy == Closest(layers)
  {
    var pre, sink, buffer := Continue, Continue, Continue;
    for k := 0 to |layers|
      invariant FailPolicies(pre, sink, buffer) == Closest(layers[..k])
    {
      assert layers[..k + 1][..k] == layers[..k];
      pre := Closer(pre, layers[k].failPolicy.prePassDown);
      sink := Closer(sink, layers[k].failPolicy.auditSinkDown);
      buffer := Closer(buffer, layers[k].failPolicy.auditBufferFull);
    }
    assert layers[..|layers|] == layers;
    policy := FailPolicies(pre, sink, buffer);
  }

  function Later(a: Option<int>, b: Option<int>): Option<int> { if b.None? then a else b }

  function LastSet(values: seq<Option<int>>): Option<int> {
    if values == [] then None else Later(LastSet(values[..|values| - 1]), values[|values| - 1])
  }

  /** The value is that at `i`, and none after it is set. */
  ghost predicate LastAt(values: seq<Option<int>>, i: nat, value: Option<int>) {
    i < |values| && values[i] == value && forall j :: i < j < |values| ==> values[j].None?
  }

  lemma {:induction false} LastSetIsLast(values: seq<Option<int>>)
    ensures LastSet(values).None? <==> forall i :: 0 <= i < |values| ==> values[i].None?
    ensures LastSet(values).Some? ==> exists i :: LastAt(values, i, LastSet(values))
  {
    if values != [] {
      var n := |values| - 1;
      LastSetIsLast(values[..n]);
      if values[n].Some? {
        assert LastAt(values, n, LastSet(values));
      } else if LastSet(values).Some? {
        var i :| LastAt(values[..n], i, LastSet(values[..n]));
        assert LastAt(values, i, LastSet(values));
      }
    }
  }

  method LastWriter(values: seq<Option<int>>) returns (value: Option<int>)
    ensures value == LastSet(values)
    ensures value.None? <==> forall i :: 0 <= i < |values| ==> values[i].None?
    ensures value.Some? ==> exists i :: LastAt(values, i, value)
  {
    value := None;
    for k := 0 to |values|
      invariant value == LastSet(values[..k])
    {
      assert values[..k + 1][..k] == values[..k];
      if values[k].Some? {
        value := values[k];
      }
    }
    assert values[..|values|] == values;
    LastSetIsLast(values);
  }

  function HotDays(layers: seq<Knobs>): seq<Option<int>> {
    seq(|layers|, i requires 0 <= i < |layers| => layers[i].hotDays)
  }

  function ColdYears(layers: seq<Knobs>): seq<Option<int>> {
    seq(|layers|, i requires 0 <= i < |layers| => layers[i].coldYears)
  }

  // ---- the merge

  function Merge(read: Reader, layers: seq<Knobs>): Knobs {
    if layers == [] then DEFAULTS
    else
      Knobs(Smallest(layers), AnyBlocks(layers), AnyGuards(layers), Broadest(read, layers), Providers(layers),
            Canaries(layers), Closest(layers), LastSet(HotDays(layers)), LastSet(ColdYears(layers)))
  }

  method MergeLayers(read: Reader, layers: seq<Knobs>) returns (merged: Knobs)
    ensures merged == Merge(read, layers)
  {
    if layers == [] {
      return DEFAULTS;
    }
    var providers := IntersectProviders(layers);
    var canaries := UnionCanaries(layers);
    var policy := MergeFailPolicy(layers);
    var hot := LastWriter(HotDays(layers));
    var cold := LastWriter(ColdYears(layers));
    merged := Knobs(Smallest(layers), AnyBlocks(layers), AnyGuards(layers), Broadest(read, layers),
                    providers, canaries, policy, hot, cold);
  }

  /** Two merged layers, merged. */
  function Join(read: Reader, a: Knobs, b: Knobs): Knobs {
    Knobs(Min(a.sizeThreshold, b.sizeThreshold), a.blockPayloads || b.blockPayloads, a.dlpGuard || b.dlpGuard,
          Wider(read, a.oracleMode, b.oracleMode), Meet(a.allowedProviders, b.allowedProviders),
          Fresh(a.canaries, b.canaries), ClosestOf(a.failPolicy, b.failPolicy),
          Later(a.hotDays, b.hotDays), Later(a.coldYears, b.coldYears))
  }

  /** One layer by itself: its mode made canonical, its canaries without repeats. */
  function Alone(read: Reader, a: Knobs): Knobs {
    a.(oracleMode := Canonical(read, a.oracleMode), canaries := Fresh([], a.canaries))
  }

  /** The same merge, layer by layer. */
  function Folded(read: Reader, layers: seq<Knobs>): Knobs
    requires layers != []
  {
    var n := |layers| - 1;
    if n == 0 then Alone(read, layers[0]) else Join(read, Folded(read, layers[..n]), Alone(read, layers[n]))
  }

  lemma {:induction false} LastOfOne(value: Option<int>)
    ensures LastSet([value]) == value
  {
    assert [value][..0] == [];
  }

  lemma {:induction false} FoldsOfOne(a: Knobs)
    ensures Providers([a]) == a.allowedProviders && Canaries([a]) == Fresh([], a.canaries)
    ensures Closest([a]) == a.failPolicy
  {
    assert [a][..0] == [];
  }

  lemma {:induction false} MergeOfOne(read: Reader, a: Knobs)
    ensures Merge(read, [a]) == Alone(read, a)
  {
    FoldsOfOne(a);
    AnyOfMore([], a);
    assert [] + [a] == [a];
    assert HotDays([a]) == [a.hotDays] && ColdYears([a]) == [a.coldYears];
    LastOfOne(a.hotDays);
    LastOfOne(a.coldYears);
    assert AnyBlocks([a]) == a.blockPayloads && AnyGuards([a]) == a.dlpGuard;
  }

  lemma {:induction false} MergeOfMore(read: Reader, layers: seq<Knobs>, a: Knobs)
    requires layers != []
    ensures Merge(read, layers + [a]) == Join(read, Merge(read, layers), Alone(read, a))
  {
    var all := layers + [a];
    assert all[..|all| - 1] == layers && all[|all| - 1] == a;
    assert HotDays(all)[..|all| - 1] == HotDays(layers) && ColdYears(all)[..|all| - 1] == ColdYears(layers);
    FreshAssoc(Canaries(layers), [], a.canaries);
    AnyOfMore(layers, a);
  }

  lemma {:induction false} MergeIsFold(read: Reader, layers: seq<Knobs>)
    requires layers != []
    ensures Merge(read, layers) == Folded(read, layers)
  {
    var n := |layers| - 1;
    if n == 0 {
      assert layers == [layers[0]];
      MergeOfOne(read, layers[0]);
    } else {
      MergeIsFold(read, layers[..n]);
      assert layers == layers[..n] + [layers[n]];
      MergeOfMore(read, layers[..n], layers[n]);
    }
  }

  lemma {:induction false} AnyOfMore(layers: seq<Knobs>, a: Knobs)
    ensures AnyBlocks(layers + [a]) <==> AnyBlocks(layers) || a.blockPayloads
    ensures AnyGuards(layers + [a]) <==> AnyGuards(layers) || a.dlpGuard
  {
    var all := layers + [a];
    assert all[|layers|] == a && forall i :: 0 <= i < |layers| ==> all[i] == layers[i];
  }

  // ---- the order of strictness

  /** `a` allows nothing that `b` does not. */
  ghost predicate AtLeastAsStrict(read: Reader, a: Knobs, b: Knobs) {
    && a.sizeThreshold <= b.sizeThreshold
    && (b.blockPayloads ==> a.blockPayloads) && (b.dlpGuard ==> a.dlpGuard)
    && !Narrower(read, Canonical(read, a.oracleMode), Canonical(read, b.oracleMode))
    && (b.allowedProviders.Some? ==> a.allowedProviders.Some? && a.allowedProviders.value <= b.allowedProviders.value)
    && (forall p :: p in b.canaries ==> p in a.canaries)
    && AtLeastAsClosed(a.failPolicy, b.failPolicy)
  }

  predicate AtLeastAsClosed(a: FailPolicies, b: FailPolicies) {
    && (b.prePassDown.FailClosed? ==> a.prePassDown.FailClosed?)
    && (b.auditSinkDown.FailClosed? ==> a.auditSinkDown.FailClosed?)
    && (b.auditBufferFull.FailClosed? ==> a.auditBufferFull.FailClosed?)
  }

  lemma {:induction false} CanonicalOnce(read: Reader, mode: string)
    requires Sane(read)
    ensures Canonical(read, Canonical(read, mode)) == Canonical(read, mode)
  {
  }

  /** A layer as it stands after a merge. */
  ghost predicate Settled(read: Reader, a: Knobs) { Alone(read, a) == a }

  lemma {:induction false} AloneSettles(read: Reader, a: Knobs)
    requires Sane(read)
    ensures Settled(read, Alone(read, a))
  {
    CanonicalOnce(read, a.oracleMode);
    FreshAssoc([], [], a.canaries);
  }

  lemma {:induction false} JoinSettles(read: Reader, a: Knobs, b: Knobs)
    requires Settled(read, a) && Settled(read, b)
    ensures Settled(read, Join(read, a, b))
  {
    FreshAssoc([], a.canaries, b.canaries);
  }

  lemma {:induction false} FoldSettles(read: Reader, layers: seq<Knobs>)
    requires Sane(read) && layers != []
    ensures Settled(read, Folded(read, layers))
  {
    var n := |layers| - 1;
    AloneSettles(read, layers[n]);
    if n > 0 {
      FoldSettles(read, layers[..n]);
      JoinSettles(read, Folded(read, layers[..n]), Alone(read, layers[n]));
    }
  }

  // ---- grouping

  lemma {:induction false} WiderAssoc(read: Reader, a: string, b: string, c: string)
    ensures Wider(read, Wider(read, a, b), c) == Wider(read, a, Wider(read, b, c))
  {
  }

  lemma {:induction false} MeetAssoc(a: Option<set<string>>, b: Option<set<string>>, c: Option<set<string>>)
    ensures Meet(Meet(a, b), c) == Meet(a, Meet(b, c))
  {
    if a.Some? && b.Some? && c.Some? {
      assert a.value * b.value * c.value == a.value * (b.value * c.value);
    }
  }

  lemma {:induction false} JoinAssoc(read: Reader, a: Knobs, b: Knobs, c: Knobs)
    ensures Join(read, Join(read, a, b), c) == Join(read, a, Join(read, b, c))
  {
    WiderAssoc(read, a.oracleMode, b.oracleMode, c.oracleMode);
    MeetAssoc(a.allowedProviders, b.allowedProviders, c.allowedProviders);
    FreshAssoc(a.canaries, b.canaries, c.canaries);
  }

  lemma {:induction false} FoldAppends(read: Reader, xs: seq<Knobs>, ys: seq<Knobs>)
    requires xs != [] && ys != []
    ensures Folded(read, xs + ys) == Join(read, Folded(read, xs), Folded(read, ys))
    decreases |ys|
  {
    var n := |ys| - 1;
    assert (xs + ys)[..|xs + ys| - 1] == xs + ys[..n] && (xs + ys)[|xs + ys| - 1] == ys[n];
    if n == 0 {
      assert xs + ys[..n] == xs;
    } else {
      FoldAppends(read, xs, ys[..n]);
      JoinAssoc(read, Folded(read, xs), Folded(read, ys[..n]), Alone(read, ys[n]));
    }
  }

  ghost predicate NoneEmpty(groups: seq<seq<Knobs>>) {
    forall i :: 0 <= i < |groups| ==> groups[i] != []
  }

  function Merges(read: Reader, groups: seq<seq<Knobs>>): (merged: seq<Knobs>)
    ensures |merged| == |groups|
  {
    if groups == [] then [] else [Merge(read, groups[0])] + Merges(read, groups[1..])
  }

  lemma {:induction false} FoldOfGroups(read: Reader, groups: seq<seq<Knobs>>)
    requires Sane(read) && groups != [] && NoneEmpty(groups)
    ensures Concat(groups) != [] && Folded(read, Merges(read, groups)) == Folded(read, Concat(groups))
  {
    var rest := groups[1..];
    MergeIsFold(read, groups[0]);
    FoldSettles(read, groups[0]);
    if rest == [] {
      assert Concat(groups) == groups[0];
    } else {
      FoldOfGroups(read, rest);
      FoldAppends(read, [Merge(read, groups[0])], Merges(read, rest));
      FoldAppends(read, groups[0], Concat(rest));
    }
  }

  /** Layers may be merged in groups, and the results merged, to the same end. */
  lemma {:induction false} GroupingIsFree(read: Reader, groups: seq<seq<Knobs>>)
    requires Sane(read) && groups != [] && NoneEmpty(groups)
    ensures Merge(read, Merges(read, groups)) == Merge(read, Concat(groups))
  {
    FoldOfGroups(read, groups);
    MergeIsFold(read, Merges(read, groups));
    MergeIsFold(read, Concat(groups));
  }

  // ---- tightening

  lemma {:induction false} StrictTransitive(read: Reader, a: Knobs, b: Knobs, c: Knobs)
    requires AtLeastAsStrict(read, a, b) && AtLeastAsStrict(read, b, c)
    ensures AtLeastAsStrict(read, a, c)
  {
  }

  lemma {:induction false} AloneIsAsStrict(read: Reader, a: Knobs)
    requires Sane(read)
    ensures AtLeastAsStrict(read, Alone(read, a), a)
  {
    CanonicalOnce(read, a.oracleMode);
    FreshLists([], a.canaries);
  }

  lemma {:induction false} JoinIsAbove(read: Reader, a: Knobs, b: Knobs)
    requires Settled(read, a) && Settled(read, b)
    ensures AtLeastAsStrict(read, Join(read, a, b), a) && AtLeastAsStrict(read, Join(read, a, b), b)
  {
    FreshLists(a.canaries, b.canaries);
  }

  lemma {:induction false} JoinStaysAbove(read: Reader, a: Knobs, b: Knobs, c: Knobs)
    requires Settled(read, a) && Settled(read, b)
    requires AtLeastAsStrict(read, a, c) || AtLeastAsStrict(read, b, c)
    ensures AtLeastAsStrict(read, Join(read, a, b), c)
  {
    JoinIsAbove(read, a, b);
    if AtLeastAsStrict(read, a, c) {
      StrictTransitive(read, Join(read, a, b), a, c);
    } else {
      StrictTransitive(read, Join(read, a, b), b, c);
    }
  }

  lemma {:induction false} JoinIsLeast(read: Reader, k: Knobs, a: Knobs, b: Knobs)
    requires Settled(read, a) && Settled(read, b)
    requires AtLeastAsStrict(read, k, a) && AtLeastAsStrict(read, k, b)
    ensures AtLeastAsStrict(read, k, Join(read, a, b))
  {
    FreshLists(a.canaries, b.canaries);
  }

  lemma {:induction false} FoldStaysAbove(read: Reader, layers: seq<Knobs>, c: Knobs)
    requires Sane(read) && |layers| > 1
    requires var n := |layers| - 1;
      AtLeastAsStrict(read, Folded(read, layers[..n]), c) || AtLeastAsStrict(read, Alone(read, layers[n]), c)
    ensures AtLeastAsStrict(read, Folded(read, layers), c)
  {
    var n := |layers| - 1;
    FoldSettles(read, layers[..n]);
    AloneSettles(read, layers[n]);
    JoinStaysAbove(read, Folded(read, layers[..n]), Alone(read, layers[n]), c);
  }

  lemma {:induction false} FoldIsAboveLast(read: Reader, layers: seq<Knobs>)
    requires Sane(read) && layers != []
    ensures AtLeastAsStrict(read, Folded(read, layers), layers[|layers| - 1])
  {
    var last := layers[|layers| - 1];
    AloneIsAsStrict(read, last);
    if |layers| > 1 {
      FoldStaysAbove(read, layers, last);
    }
  }

  lemma {:induction false} FoldIsAbove(read: Reader, layers: seq<Knobs>, i: nat)
    requires Sane(read) && i < |layers|
    ensures AtLeastAsStrict(read, Folded(read, layers), layers[i])
  {
    var n := |layers| - 1;
    if i == n {
      FoldIsAboveLast(read, layers);
    } else {
      FoldIsAbove(read, layers[..n], i);
      FoldStaysAbove(read, layers, layers[i]);
    }
  }

  lemma {:induction false} FoldIsLeast(read: Reader, k: Knobs, layers: seq<Knobs>)
    requires Sane(read) && layers != []
    requires forall i :: 0 <= i < |layers| ==> AtLeastAsStrict(read, k, layers[i])
    ensures AtLeastAsStrict(read, k, Folded(read, layers))
  {
    var n := |layers| - 1;
    AloneNoStricter(read, k, layers[n]);
    if n > 0 {
      FoldIsLeast(read, k, layers[..n]);
      FoldSettles(read, layers[..n]);
      AloneSettles(read, layers[n]);
      JoinIsLeast(read, k, Folded(read, layers[..n]), Alone(read, layers[n]));
    }
  }

  /** The merge is as strict as each of its layers. */
  lemma {:induction false} MergeIsAbove(read: Reader, layers: seq<Knobs>, i: nat)
    requires Sane(read) && i < |layers|
    ensures AtLeastAsStrict(read, Merge(read, layers), layers[i])
  {
    MergeIsFold(read, layers);
    FoldIsAbove(read, layers, i);
  }

  /** And no stricter than it has to be: whatever is as strict as each layer is as strict as
      the merge. */
  lemma {:induction false} MergeIsLeast(read: Reader, k: Knobs, layers: seq<Knobs>)
    requires Sane(read) && layers != []
    requires forall i :: 0 <= i < |layers| ==> AtLeastAsStrict(read, k, layers[i])
    ensures AtLeastAsStrict(read, k, Merge(read, layers))
  {
    MergeIsFold(read, layers);
    FoldIsLeast(read, k, layers);
  }

  lemma {:induction false} AloneNoStricter(read: Reader, k: Knobs, a: Knobs)
    requires Sane(read) && AtLeastAsStrict(read, k, a)
    ensures AtLeastAsStrict(read, k, Alone(read, a))
  {
    CanonicalOnce(read, a.oracleMode);
    FreshLists([], a.canaries);
  }

  /** A layer added anywhere loosens nothing. */
  lemma {:induction false} AddingALayerTightens(read: Reader, xs: seq<Knobs>, a: Knobs, ys: seq<Knobs>)
    requires Sane(read) && xs + ys != []
    ensures AtLeastAsStrict(read, Merge(read, xs + [a] + ys), Merge(read, xs + ys))
  {
    var more := xs + [a] + ys;
    forall i | 0 <= i < |xs + ys|
      ensures AtLeastAsStrict(read, Merge(read, more), (xs + ys)[i])
    {
      MergeIsAbove(read, more, if i < |xs| then i else i + 1);
    }
    MergeIsLeast(read, Merge(read, more), xs + ys);
  }

  /** The layers replace the defaults, and may loosen them: they do not exactly when some
      threshold is no higher, some buffer policy closed and some mode a known one. */
  ghost predicate KeepsDefaults(read: Reader, layers: seq<Knobs>) {
    && (exists i :: 0 <= i < |layers| && layers[i].sizeThreshold <= DEFAULT_THRESHOLD_BYTES)
    && (exists i :: 0 <= i < |layers| && layers[i].failPolicy.auditBufferFull.FailClosed?)
    && SomeKnown(read, layers)
  }

  lemma {:induction false} SmallestIsOne(layers: seq<Knobs>, bound: int)
    requires layers != []
    ensures Smallest(layers) <= bound <==> exists i :: 0 <= i < |layers| && layers[i].sizeThreshold <= bound
  {
    var n := |layers| - 1;
    if n > 0 {
      SmallestIsOne(layers[..n], bound);
    }
  }

  lemma {:induction false} ClosestIsOne(layers: seq<Knobs>)
    ensures Closest(layers).auditBufferFull.FailClosed? <==>
      exists i :: 0 <= i < |layers| && layers[i].failPolicy.auditBufferFull.FailClosed?
  {
    if layers != [] {
      ClosestIsOne(layers[..|layers| - 1]);
    }
  }

  ghost predicate SomeKnown(read: Reader, layers: seq<Knobs>) {
    exists i :: 0 <= i < |layers| && Rank(read, layers[i].oracleMode) >= 0
  }

  lemma {:induction false} SomeKnownSplits(read: Reader, layers: seq<Knobs>)
    requires layers != []
    ensures var n := |layers| - 1;
      SomeKnown(read, layers) <==> SomeKnown(read, layers[..n]) || Rank(read, layers[n].oracleMode) >= 0
  {
    var n := |layers| - 1;
    assert forall i :: 0 <= i < n ==> layers[..n][i] == layers[i];
  }

  lemma {:induction false} WiderIsKnown(read: Reader, a: string, b: string)
    ensures Rank(read, Wider(read, a, b)) >= 0 <==> Rank(read, a) >= 0 || Rank(read, b) >= 0
  {
  }

  lemma {:induction false} BroadestIsKnown(read: Reader, layers: seq<Knobs>)
    requires Sane(read) && layers != []
    ensures Rank(read, Broadest(read, layers)) >= 0 <==> SomeKnown(read, layers)
  {
    var n := |layers| - 1;
    var last := Canonical(read, layers[n].oracleMode);
    CanonicalOnce(read, layers[n].oracleMode);
    assert Rank(read, last) == Rank(read, layers[n].oracleMode);
    SomeKnownSplits(read, layers);
    if n > 0 {
      BroadestIsKnown(read, layers[..n]);
      WiderIsKnown(read, Broadest(read, layers[..n]), last);
    }
  }

  lemma {:induction false} BroadestIsCanonical(read: Reader, layers: seq<Knobs>)
    requires Sane(read) && layers != []
    ensures Canonical(read, Broadest(read, layers)) == Broadest(read, layers)
  {
    var n := |layers| - 1;
    CanonicalOnce(read, layers[n].oracleMode);
    if n > 0 {
      BroadestIsCanonical(read, layers[..n]);
    }
  }

  lemma {:induction false} OverTheDefaults(read: Reader, layers: seq<Knobs>)
    requires Sane(read) && layers != []
    ensures AtLeastAsStrict(read, Merge(read, layers), Merge(read, [])) <==> KeepsDefaults(read, layers)
  {
    SmallestIsOne(layers, DEFAULT_THRESHOLD_BYTES);
    ClosestIsOne(layers);
    BroadestIsKnown(read, layers);
    BroadestIsCanonical(read, layers);
  }

  // ---- which mode wins

  /** What a mode covers, from nothing known to everything. */
  datatype Coverage = Unknown | GazetteerHit | Sampled(pct: int) | AnyLocalFinding | Always

  function CoverageOf(r: Reading): Coverage {
    if r.head == "gazetteer_hit" then GazetteerHit
    else if r.head == "any_local_finding" then AnyLocalFinding
    else if r.head == "always" then Always
    else if r.head != "sampled" then Unknown
    else
      match r.number
      case None => Sampled(0)
      case Some(pct) => if pct >= 100 then Always else if pct <= 0 then GazetteerHit else Sampled(pct)
  }

  /** Unknown modes cover least; then gazetteer hits, samples by their share, local findings, all. */
  predicate CoversLess(a: Coverage, b: Coverage) {
    match (a, b)
    case (Unknown, _) => !b.Unknown?
    case (GazetteerHit, _) => b.Sampled? || b.AnyLocalFinding? || b.Always?
    case (Sampled(p), Sampled(q)) => p < q
    case (Sampled(_), _) => b.AnyLocalFinding? || b.Always?
    case (AnyLocalFinding, _) => b.Always?
    case (Always, _) => false
  }

  lemma {:induction false} NarrowerIsLess(read: Reader, a: string, b: string)
    requires Sane(read)
    ensures Narrower(read, Canonical(read, a), Canonical(read, b)) <==>
            CoversLess(CoverageOf(read(a)), CoverageOf(read(b)))
  {
    CanonicalOnce(read, a);
    CanonicalOnce(read, b);
  }

  /** The mode at `i` is the first of those that cover most. */
  ghost predicate FirstWidest(modes: seq<Coverage>, i: nat) {
    && i < |modes|
    && (forall j :: 0 <= j < |modes| ==> !CoversLess(modes[i], modes[j]))
    && (forall j :: 0 <= j < i ==> CoversLess(modes[j], modes[i]))
  }

  lemma {:induction false} WeakOrder(a: Coverage, b: Coverage, c: Coverage)
    ensures CoversLess(a, b) && CoversLess(b, c) ==> CoversLess(a, c)
    ensures CoversLess(a, c) ==> CoversLess(a, b) || CoversLess(b, c)
  {
  }

  lemma {:induction false} OneModeMore(modes: seq<Coverage>, mode: Coverage, i: nat)
    requires FirstWidest(modes, i)
    ensures FirstWidest(modes + [mode], if CoversLess(modes[i], mode) then |modes| else i)
  {
    forall j | 0 <= j < |modes|
      ensures CoversLess(modes[i], mode) ==> CoversLess(modes[j], mode) && !CoversLess(mode, modes[j])
    {
      WeakOrder(modes[i], modes[j], mode);
      WeakOrder(modes[i], mode, modes[j]);
    }
  }

  function Modes(read: Reader, layers: seq<Knobs>): (modes: seq<Coverage>)
    ensures |modes| == |layers|
    ensures forall i :: 0 <= i < |layers| ==> modes[i] == CoverageOf(read(layers[i].oracleMode))
  {
    seq(|layers|, i requires 0 <= i < |layers| => CoverageOf(read(layers[i].oracleMode)))
  }

  lemma {:induction false} BroadestIsFirstWidest(read: Reader, layers: seq<Knobs>) returns (i: nat)
    requires Sane(read) && layers != []
    ensures FirstWidest(Modes(read, layers), i) && Broadest(read, layers) == Canonical(read, layers[i].oracleMode)
  {
    var n := |layers| - 1;
    if n == 0 {
      i := 0;
    } else {
      var k := BroadestIsFirstWidest(read, layers[..n]);
      i := OneLayerMore(read, layers, k);
    }
  }

  lemma {:induction false} OneLayerMore(read: Reader, layers: seq<Knobs>, k: nat) returns (i: nat)
    requires Sane(read) && |layers| > 1
    requires var before := layers[..|layers| - 1];
             FirstWidest(Modes(read, before), k) && Broadest(read, before) == Canonical(read, before[k].oracleMode)
    ensures FirstWidest(Modes(read, layers), i) && Broadest(read, layers) == Canonical(read, layers[i].oracleMode)
  {
    var n := |layers| - 1;
    var modes, last := Modes(read, layers[..n]), CoverageOf(read(layers[n].oracleMode));
    NarrowerIsLess(read, layers[k].oracleMode, layers[n].oracleMode);
    OneModeMore(modes, last, k);
    assert Modes(read, layers) == modes + [last];
    i := if CoversLess(modes[k], last) then n else k;
  }

  /** The merged mode is that of the first layer among those that cover most, a sample of everything
      or of nothing under its plain name. */
  lemma {:induction false} MergeTakesTheWidestMode(read: Reader, layers: seq<Knobs>) returns (i: nat)
    requires Sane(read) && layers != []
    ensures FirstWidest(Modes(read, layers), i)
    ensures var mode, r := layers[i].oracleMode, read(layers[i].oracleMode);
            Merge(read, layers).oracleMode ==
            if r.head == "sampled" && r.number.Some? && r.number.value >= 100 then "always"
            else if r.head == "sampled" && r.number.Some? && r.number.value <= 0 then "gazetteer_hit"
            else mode
  {
    i := BroadestIsFirstWidest(read, layers);
  }
}
