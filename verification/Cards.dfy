/**
  Card numbers inside a run of digits: every window with a plausible issuer and a valid
  sum that touches either end of the run, merged.
 */
module Cards {
  import opened Texts
  import opened Spans
  import opened Checksums

  // Stray digits allowed beside a number that touches neither end of its run.
  const CARD_STRAY_MARGIN: nat := 0

  /** The lengths the issuer of this number emits; none for an unassigned one. */
  function CardLengths(d: seq<Digit>): (r: seq<nat>)
    ensures forall i :: 0 <= i < |r| ==> 13 <= r[i] <= 19
  {
    if |d| < 4 then []
    else
      var p2 := 10 * (d[0] as int) + d[1];
      var p3 := 10 * p2 + d[2];
      var p4 := 10 * p3 + d[3];
      if 2200 <= p4 <= 2204 then [16, 19]                                          // Mir
      else if 2221 <= p4 <= 2720 then [16]                                         // Mastercard 2-series
      else if p2 == 34 || p2 == 37 then [15]                                       // American Express
      else if 300 <= p3 <= 305 || p4 == 3095 || p2 in {36, 38, 39} then [14, 16]   // Diners Club
      else if 3528 <= p4 <= 3589 then [16, 19]                                     // JCB
      else if p2 / 10 == 4 then [13, 16, 19]                                       // Visa
      else if 51 <= p2 <= 55 then [16]                                             // Mastercard
      else if p2 == 50 || 56 <= p2 <= 58 then [16, 19]                             // Maestro
      else if p2 == 62 || p2 == 81 then [16, 19]                                   // UnionPay
      else if p4 == 6011 || 644 <= p3 <= 649 || p2 == 65 then [16, 19]             // Discover
      else []
  }

  predicate RunChar(c: char) { IsDigit(c) || c == ' ' || c == '-' }

  /** What a card pattern matches is made of: digits, spaces and hyphens. */
  predicate IsRun(group: string) {
    forall i :: 0 <= i < |group| ==> RunChar(group[i])
  }

  /** Where the digits of a run stand in the text. */
  function Offsets(group: string, start: nat): seq<nat> {
    if group == [] then []
    else (if IsDigit(group[0]) then [start] else []) + Offsets(group[1..], start + 1)
  }

  lemma {:induction false} RunIsDigits(group: string, start: nat)
    requires IsRun(group)
    ensures AllDigits(Strip(group)) && |Offsets(group, start)| == |Strip(group)|
    decreases |group|
  {
    if group != [] {
      RunIsDigits(group[1..], start + 1);
    }
  }

  /** The k-th offset is where the k-th digit stands, and they ascend. */
  lemma {:induction false} OffsetPointsAtDigit(group: string, start: nat, k: nat)
    requires IsRun(group) && k < |Offsets(group, start)|
    ensures k < |Strip(group)|
    ensures var o := Offsets(group, start)[k];
            start <= o < start + |group| && group[o - start] == Strip(group)[k]
    ensures k + 1 < |Offsets(group, start)| ==> Offsets(group, start)[k] < Offsets(group, start)[k + 1]
    decreases |group|
  {
    RunIsDigits(group, start);
    var tail := Offsets(group[1..], start + 1);
    if IsDigit(group[0]) {
      if k > 0 {
        OffsetPointsAtDigit(group[1..], start + 1, k - 1);
      } else if |tail| > 0 {
        OffsetPointsAtDigit(group[1..], start + 1, 0);
      }
    } else {
      OffsetPointsAtDigit(group[1..], start + 1, k);
    }
  }

  ghost predicate Ascending(s: seq<nat>) {
    forall j, k :: 0 <= j < k < |s| ==> s[j] < s[k]
  }

  lemma {:induction false} OffsetsAscend(group: string, start: nat)
    requires IsRun(group)
    ensures Ascending(Offsets(group, start))
    decreases |group|
  {
    if group != [] {
      OffsetsAscend(group[1..], start + 1);
      var tail := Offsets(group[1..], start + 1);
      forall k | 0 <= k < |tail|
        ensures start < tail[k]
      {
        OffsetPointsAtDigit(group[1..], start + 1, k);
      }
    }
  }

  // ---- the windows

  /** A window of the run: an issuer that emits this length, a valid sum, and it touches the
      run's start or its end. */
  predicate Window(d: seq<Digit>, i: nat, n: nat) {
    && i + n <= |d|
    && n in CardLengths(d[i..])
    && LuhnValid(d[i..i + n])
    && (i == 0 || i + n == |d|)
  }

  /** The characters of the text a window spans, separators inside it included. */
  function SpanOf(offsets: seq<nat>, i: nat, n: nat): Span
    requires n > 0 && i + n <= |offsets|
  {
    Span(offsets[i], offsets[i + n - 1] + 1)
  }

  /** The span of a window holds its digits and no other of the run. */
  lemma {:induction false} SpanHoldsItsDigits(offsets: seq<nat>, i: nat, n: nat, k: nat)
    requires Ascending(offsets) && n > 0 && i + n <= |offsets| && k < |offsets|
    ensures SpanOf(offsets, i, n).start <= offsets[k] < SpanOf(offsets, i, n).end <==> i <= k < i + n
    ensures SpanOf(offsets, i, n).start == offsets[i] && SpanOf(offsets, i, n).end - 1 == offsets[i + n - 1]
  {
    assert i < k ==> offsets[i] < offsets[k];
    assert k < i ==> offsets[k] < offsets[i];
  }

  lemma {:induction false} StripDigits(s: string)
    requires AllDigits(s)
    ensures Strip(s) == s
  {
    if s != [] {
      StripDigits(s[1..]);
    }
  }

  lemma {:induction false} SliceAccepted(text: string, i: nat, n: nat)
    requires AllDigits(text) && i + n <= |text| && 13 <= n <= 19
    ensures LuhnAccepts(text[i..i + n]) <==> LuhnValid(Digits(text)[i..i + n])
  {
    StripDigits(text[i..i + n]);
    assert Digits(text[i..i + n]) == Digits(text)[i..i + n];
  }

  /** The issuer only looks at the first four digits. */
  lemma {:induction false} FourDecide(d: seq<Digit>, i: nat)
    requires i <= |d|
    ensures CardLengths(d[i..if i + 4 <= |d| then i + 4 else |d|]) == CardLengths(d[i..])
  {
  }

  /** The loop body: one of the issuer's lengths at one digit. */
  method IsWindow(text: string, d: seq<Digit>, i: nat, n: nat) returns (ok: bool)
    requires AllDigits(text) && d == Digits(text) && i <= |d| && n in CardLengths(d[i..])
    ensures ok <==> Window(d, i, n)
  {
    var tail := |d| - i - n;
    if tail < 0 || (i > 0 && tail > 0 && (i > CARD_STRAY_MARGIN || tail > CARD_STRAY_MARGIN)) {
      return false;
    }
    ok := LuhnOk(text[i..i + n]);
    SliceAccepted(text, i, n);
  }

  ghost predicate FromWindow(d: seq<Digit>, offsets: seq<nat>, i: nat, s: Span)
    requires |offsets| == |d|
  {
    exists n: nat :: Window(d, i, n) && n > 0 && s == SpanOf(offsets, i, n)
  }

  /** The windows of the first `j` lengths, and nothing else. */
  ghost predicate WindowsOf(d: seq<Digit>, offsets: seq<nat>, i: nat, lengths: seq<nat>, j: nat, spans: seq<Span>)
    requires |offsets| == |d|
  {
    && j <= |lengths|
    && (forall k :: 0 <= k < j && Window(d, i, lengths[k]) ==>
          lengths[k] > 0 && SpanOf(offsets, i, lengths[k]) in spans)
    && (forall s :: s in spans ==> FromWindow(d, offsets, i, s))
  }

  lemma {:induction false} OneLengthMore(
    d: seq<Digit>, offsets: seq<nat>, i: nat, lengths: seq<nat>, j: nat, spans: seq<Span>)
    requires |offsets| == |d| && j < |lengths| && lengths[j] > 0 && WindowsOf(d, offsets, i, lengths, j, spans)
    ensures !Window(d, i, lengths[j]) ==> WindowsOf(d, offsets, i, lengths, j + 1, spans)
    ensures Window(d, i, lengths[j]) ==>
      WindowsOf(d, offsets, i, lengths, j + 1, spans + [SpanOf(offsets, i, lengths[j])])
  {
    if Window(d, i, lengths[j]) {
      assert FromWindow(d, offsets, i, SpanOf(offsets, i, lengths[j]));
    }
  }

  /** The windows that start at one digit. */
  method WindowsAt(text: string, d: seq<Digit>, offsets: seq<nat>, i: nat) returns (spans: seq<Span>)
    requires AllDigits(text) && d == Digits(text) && |offsets| == |d| && i + 13 <= |d|
    ensures forall n: nat :: Window(d, i, n) ==> n > 0 && SpanOf(offsets, i, n) in spans
    ensures forall s :: s in spans ==> FromWindow(d, offsets, i, s)
  {
    var lengths := CardLengths(d[i..i + 4]);
    FourDecide(d, i);
    spans := [];
    for j := 0 to |lengths|
      invariant WindowsOf(d, offsets, i, lengths, j, spans)
    {
      OneLengthMore(d, offsets, i, lengths, j, spans);
      var ok := IsWindow(text, d, i, lengths[j]);
      if ok {
        spans := spans + [SpanOf(offsets, i, lengths[j])];
      }
    }
    AllLengths(d, offsets, i, lengths, spans);
  }

  lemma {:induction false} AllLengths(d: seq<Digit>, offsets: seq<nat>, i: nat, lengths: seq<nat>, spans: seq<Span>)
    requires |offsets| == |d| && i <= |d| && lengths == CardLengths(d[i..])
      && WindowsOf(d, offsets, i, lengths, |lengths|, spans)
    ensures forall n: nat :: Window(d, i, n) ==> n > 0 && SpanOf(offsets, i, n) in spans
  {
    forall n: nat | Window(d, i, n)
      ensures n > 0 && SpanOf(offsets, i, n) in spans
    {
      var k :| 0 <= k < |lengths| && lengths[k] == n;
    }
  }

  /** Every window of the run lies inside one of the spans yielded. */
  ghost predicate AllHoused(d: seq<Digit>, offsets: seq<nat>, result: seq<Span>)
    requires |offsets| == |d|
  {
    forall i: nat, n: nat :: Window(d, i, n) && n > 0 ==> Housed(SpanOf(offsets, i, n), result)
  }

  ghost predicate InWindow(d: seq<Digit>, offsets: seq<nat>, p: int)
    requires |offsets| == |d|
  {
    exists i: nat, n: nat :: Window(d, i, n) && n > 0 && SpanOf(offsets, i, n).start <= p < SpanOf(offsets, i, n).end
  }

  /** What one run yields: ascending disjoint spans that cover exactly the characters of its
      windows, each window whole inside one of them. */
  method CardCandidates(group: string, start: nat) returns (result: seq<Span>)
    requires IsRun(group)
    ensures RunOk(group, start)
    ensures AscendingDisjoint(result)
    ensures AllHoused(Digits(Strip(group)), Offsets(group, start), result)
    ensures forall p :: Covers(result, p) <==> InWindow(Digits(Strip(group)), Offsets(group, start), p)
  {
    RunIsDigits(group, start);
    OffsetsAscend(group, start);
    var text := Strip(group);
    var d := Digits(text);
    var offsets := Offsets(group, start);
    var spans := AllWindows(text, d, offsets);
    result := MergeSpans(spans);
    MergedWindows(d, offsets, spans, result);
  }

  predicate RunOk(group: string, start: nat) {
    AllDigits(Strip(group)) && |Offsets(group, start)| == |Strip(group)|
  }

  /** The spans of all windows, and of nothing else. */
  ghost predicate ExactlyWindows(d: seq<Digit>, offsets: seq<nat>, spans: seq<Span>)
    requires |offsets| == |d|
  {
    && (forall i: nat, n: nat :: Window(d, i, n) && n > 0 ==> SpanOf(offsets, i, n) in spans)
    && (forall s :: s in spans ==> exists i: nat :: FromWindow(d, offsets, i, s))
  }

  lemma {:induction false} WindowIsLong(d: seq<Digit>, i: nat, n: nat)
    requires Window(d, i, n)
    ensures n >= 13 && i + 13 <= |d|
  {
  }

  lemma {:induction false} WindowsAreProper(d: seq<Digit>, offsets: seq<nat>, spans: seq<Span>)
    requires |offsets| == |d| && Ascending(offsets) && ExactlyWindows(d, offsets, spans)
    ensures Proper(spans)
  {
    forall j | 0 <= j < |spans|
      ensures spans[j].start <= spans[j].end
    {
      assert spans[j] in spans;
      var i: nat :| FromWindow(d, offsets, i, spans[j]);
      var n: nat :| Window(d, i, n) && n > 0 && spans[j] == SpanOf(offsets, i, n);
    }
  }

  /** The windows that start before the k-th digit are all there, and nothing else is. */
  ghost predicate WindowsBefore(d: seq<Digit>, offsets: seq<nat>, k: nat, spans: seq<Span>)
    requires |offsets| == |d|
  {
    && (forall i: nat, n: nat :: i < k && Window(d, i, n) && n > 0 ==> SpanOf(offsets, i, n) in spans)
    && (forall s :: s in spans ==> exists i: nat :: FromWindow(d, offsets, i, s))
  }

  lemma {:induction false} OneStartMore(d: seq<Digit>, offsets: seq<nat>, k: nat, spans: seq<Span>, here: seq<Span>)
    requires |offsets| == |d| && WindowsBefore(d, offsets, k, spans)
    requires forall n: nat :: Window(d, k, n) ==> n > 0 && SpanOf(offsets, k, n) in here
    requires forall s :: s in here ==> FromWindow(d, offsets, k, s)
    ensures WindowsBefore(d, offsets, k + 1, spans + here)
  {
    forall s | s in spans + here
      ensures exists i: nat :: FromWindow(d, offsets, i, s)
    {
      if s in here {
        assert FromWindow(d, offsets, k, s);
      }
    }
  }

  method AllWindows(text: string, d: seq<Digit>, offsets: seq<nat>) returns (spans: seq<Span>)
    requires AllDigits(text) && d == Digits(text) && |offsets| == |d| && Ascending(offsets)
    ensures ExactlyWindows(d, offsets, spans) && Proper(spans)
  {
    spans := [];
    var k: nat := 0;
    while k + 12 < |d|
      invariant WindowsBefore(d, offsets, k, spans)
    {
      var here := WindowsAt(text, d, offsets, k);
      OneStartMore(d, offsets, k, spans, here);
      spans := spans + here;
      k := k + 1;
    }
    forall i: nat, n: nat | Window(d, i, n) && n > 0
      ensures SpanOf(offsets, i, n) in spans
    {
      WindowIsLong(d, i, n);
    }
    WindowsAreProper(d, offsets, spans);
  }

  lemma {:induction false} MergedWindows(d: seq<Digit>, offsets: seq<nat>, spans: seq<Span>, result: seq<Span>)
    requires |offsets| == |d| && ExactlyWindows(d, offsets, spans)
    requires forall p :: Covers(result, p) <==> Covers(spans, p)
    requires forall i :: 0 <= i < |spans| ==> Housed(spans[i], result)
    ensures AllHoused(d, offsets, result)
    ensures forall p :: Covers(result, p) <==> InWindow(d, offsets, p)
  {
    forall p
      ensures Covers(spans, p) <==> InWindow(d, offsets, p)
    {
      if Covers(spans, p) {
        var j :| 0 <= j < |spans| && spans[j].start <= p < spans[j].end;
        assert spans[j] in spans;
        var i: nat :| FromWindow(d, offsets, i, spans[j]);
        var n: nat :| Window(d, i, n) && n > 0 && spans[j] == SpanOf(offsets, i, n);
      }
      if InWindow(d, offsets, p) {
        var i: nat, n: nat :| Window(d, i, n) && n > 0 && SpanOf(offsets, i, n).start <= p < SpanOf(offsets, i, n).end;
        var j :| 0 <= j < |spans| && spans[j] == SpanOf(offsets, i, n);
      }
    }
  }
}
