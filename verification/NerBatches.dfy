/**
  Texts split into requests for the NER service, under its three limits at once: texts per
  request, characters per request, and bytes of the serialised body.
 */
module NerBatches {
  import opened Texts
  import opened Seqs

  type Byte = nat

  /** A text as a JSON string, encoded; a parameter. */
  type Encoder = Text -> seq<Byte>

  datatype Limits = Limits(maxTexts: int, maxChars: int, maxBytes: int)

  const OPENING: seq<Byte> := [123, 34, 116, 101, 120, 116, 115, 34, 58, 91]   // {"texts":[
  const CLOSING: seq<Byte> := [93, 125]                                        // ]}
  const COMMA: Byte := 44
  const ENVELOPE_BYTES: nat := 12

  // ---- the body on the wire

  function Elements(enc: Encoder, batch: seq<Text>): seq<Byte>
    decreases |batch|
  {
    if batch == [] then []
    else if |batch| == 1 then enc(batch[0])
    else Elements(enc, batch[..|batch| - 1]) + [COMMA] + enc(batch[|batch| - 1])
  }

  /** `json.dumps({"texts": batch})` with compact separators. */
  function Body(enc: Encoder, batch: seq<Text>): seq<Byte> {
    OPENING + Elements(enc, batch) + CLOSING
  }

  // ---- what is counted

  function Chars(batch: seq<Text>): nat {
    if batch == [] then 0 else Chars(batch[..|batch| - 1]) + |batch[|batch| - 1]|
  }

  function Encoded(enc: Encoder, batch: seq<Text>): nat {
    if batch == [] then 0 else Encoded(enc, batch[..|batch| - 1]) + |enc(batch[|batch| - 1])|
  }

  function BodyBytes(enc: Encoder, batch: seq<Text>): nat {
    ENVELOPE_BYTES + Encoded(enc, batch) + (if batch == [] then 0 else |batch| - 1)
  }

  /** The count the splitter keeps is the length of what goes on the wire. */
  lemma {:induction false} BodyIsCounted(enc: Encoder, batch: seq<Text>)
    ensures |Body(enc, batch)| == BodyBytes(enc, batch)
  {
    ElementsCounted(enc, batch);
  }

  lemma {:induction false} ElementsCounted(enc: Encoder, batch: seq<Text>)
    ensures |Elements(enc, batch)| == Encoded(enc, batch) + (if batch == [] then 0 else |batch| - 1)
    decreases |batch|
  {
    if batch != [] {
      ElementsCounted(enc, batch[..|batch| - 1]);
    }
  }

  /** The body is the bytes of an object with one array, its elements parted by commas. */
  lemma {:induction false} BodyOnTheWire(enc: Encoder, batch: seq<Text>, text: Text)
    ensures |OPENING| == 10 && forall i :: 0 <= i < 10 ==> OPENING[i] == "{\"texts\":["[i] as int
    ensures |CLOSING| == 2 && CLOSING[0] == ']' as int && CLOSING[1] == '}' as int
    ensures Body(enc, []) == OPENING + CLOSING && Body(enc, [text]) == OPENING + enc(text) + CLOSING
    ensures batch != [] ==>
              Body(enc, batch + [text]) ==
                Body(enc, batch)[..|Body(enc, batch)| - 2] + [',' as int] + enc(text) + CLOSING
  {
    assert OPENING + [] == OPENING;
    var more := batch + [text];
    assert more[..|more| - 1] == batch && more[|more| - 1] == text;
    if batch != [] {
      var body := Body(enc, batch);
      assert body[..|body| - 2] == OPENING + Elements(enc, batch);
      Assoc(OPENING, Elements(enc, batch), [COMMA]);
      Assoc(OPENING, Elements(enc, batch) + [COMMA], enc(text));
    }
  }

  lemma {:induction false} CharsAreAll(batch: seq<Text>)
    ensures Chars(batch) == |Concat(batch)|
  {
    if batch != [] {
      var n := |batch| - 1;
      CharsAreAll(batch[..n]);
      assert batch == batch[..n] + [batch[n]];
      ConcatAppends(batch[..n], [batch[n]]);
      ConcatCons(batch[n], []);
      assert [batch[n]] + [] == [batch[n]];
    }
  }

  /** A request the service accepts: so many texts, so many characters in all of them, so many bytes
      on the wire. */
  ghost predicate Fits(enc: Encoder, lim: Limits, batch: seq<Text>) {
    |batch| <= lim.maxTexts && |Concat(batch)| <= lim.maxChars && |Body(enc, batch)| <= lim.maxBytes
  }

  /** A text that fits a request of its own, as far as its size goes. */
  predicate FitsAlone(enc: Encoder, lim: Limits, text: Text) {
    |text| <= lim.maxChars && ENVELOPE_BYTES + |enc(text)| <= lim.maxBytes
  }

  // ---- splitting

  /** What one request may hold, as a set of batches. */
  type Limit = seq<Text> -> bool

  ghost predicate Downward(fits: Limit) {
    forall a: seq<Text>, part: seq<Text>, b: seq<Text> :: fits(a + (part + b)) ==> fits(part)
  }

  ghost predicate AllFit(fits: Limit, batches: seq<seq<Text>>) {
    forall i :: 0 <= i < |batches| ==> fits(batches[i])
  }

  ghost predicate NoneEmpty(batches: seq<seq<Text>>) {
    forall i :: 0 <= i < |batches| ==> batches[i] != []
  }

  /** Each batch but the last is full: the next text would not have fitted. */
  ghost predicate Greedy(fits: Limit, batches: seq<seq<Text>>)
    requires NoneEmpty(batches)
  {
    forall i, j :: 0 <= i && j == i + 1 && j < |batches| ==> !fits(batches[i] + [batches[j][0]])
  }

  lemma {:induction false} MeasuresAdd(enc: Encoder, a: seq<Text>, b: seq<Text>)
    ensures Chars(a + b) == Chars(a) + Chars(b)
    ensures Encoded(enc, a + b) == Encoded(enc, a) + Encoded(enc, b)
    decreases |b|
  {
    if b == [] {
      assert a + b == a;
    } else {
      var n := |b| - 1;
      assert (a + b)[..|a + b| - 1] == a + b[..n] && (a + b)[|a + b| - 1] == b[n];
      MeasuresAdd(enc, a, b[..n]);
    }
  }

  /** Part of a request that fits fits too. */
  lemma {:induction false} PartFits(enc: Encoder, lim: Limits, a: seq<Text>, part: seq<Text>, b: seq<Text>)
    requires Fits(enc, lim, a + (part + b))
    ensures Fits(enc, lim, part)
  {
    MeasuresAdd(enc, part, b);
    MeasuresAdd(enc, a, part + b);
    CharsAreAll(part);
    CharsAreAll(a + (part + b));
    BodyIsCounted(enc, part);
    BodyIsCounted(enc, a + (part + b));
  }

  function Prefix(batches: seq<seq<Text>>, k: nat): seq<Text>
    requires k <= |batches|
  {
    Concat(batches[..k])
  }

  lemma {:induction false} PrefixGrows(batches: seq<seq<Text>>, k: nat)
    requires k < |batches|
    ensures Prefix(batches, k + 1) == Prefix(batches, k) + batches[k]
    ensures Prefix(batches, k + 1) + Concat(batches[k + 1..]) == Concat(batches)
  {
    assert batches[..k + 1] == batches[..k] + [batches[k]];
    ConcatAppends(batches[..k], [batches[k]]);
    ConcatCons(batches[k], []);
    assert [batches[k]] + [] == [batches[k]];
    assert batches == batches[..k + 1] + batches[k + 1..];
    ConcatAppends(batches[..k + 1], batches[k + 1..]);
  }

  lemma {:induction false} PrefixOfWhole(batches: seq<seq<Text>>, k: nat)
    requires k <= |batches|
    ensures Prefix(batches, k) <= Concat(batches)
  {
    assert batches == batches[..k] + batches[k..];
    ConcatAppends(batches[..k], batches[k..]);
  }

  /** The greedy split stays ahead: after `k` batches it has dealt with no fewer texts than
      any other split that meets the limits. */
  lemma {:induction false} StaysAhead(fits: Limit, batches: seq<seq<Text>>, other: seq<seq<Text>>, k: nat)
    requires NoneEmpty(batches) && Greedy(fits, batches)
    requires Downward(fits) && AllFit(fits, other) && Concat(other) == Concat(batches)
    requires k <= |batches| && k <= |other|
    ensures |Prefix(other, k)| <= |Prefix(batches, k)|
  {
    if k > 0 {
      StaysAhead(fits, batches, other, k - 1);
      PrefixGrows(batches, k - 1);
      PrefixGrows(other, k - 1);
      PrefixOfWhole(other, k);
      PrefixOfWhole(batches, k);
      if |Prefix(other, k)| > |Prefix(batches, k)| {
        assert batches[..|batches|] == batches;
        OneMoreWouldFit(fits, batches, other, k);
        assert false;
      }
    }
  }

  lemma {:induction false} BatchIsSlice(batches: seq<seq<Text>>, k: nat)
    requires k < |batches|
    ensures |Prefix(batches, k + 1)| == |Prefix(batches, k)| + |batches[k]| <= |Concat(batches)|
    ensures Concat(batches)[|Prefix(batches, k)|..|Prefix(batches, k + 1)|] == batches[k]
  {
    PrefixGrows(batches, k);
  }

  /** The full batch with its next text, as a slice of all the texts. */
  lemma {:induction false} OneMoreIsSlice(batches: seq<seq<Text>>, k: nat)
    requires 0 < k < |batches| && batches[k] != []
    ensures |Prefix(batches, k - 1)| <= |Prefix(batches, k)| < |Concat(batches)|
    ensures Concat(batches)[|Prefix(batches, k - 1)|..|Prefix(batches, k)| + 1] == batches[k - 1] + [batches[k][0]]
  {
    BatchIsSlice(batches, k - 1);
    BatchIsSlice(batches, k);
    var texts := Concat(batches);
    var g, h := |Prefix(batches, k - 1)|, |Prefix(batches, k)|;
    assert texts[h] == texts[h..|Prefix(batches, k + 1)|][0];
    assert texts[g..h + 1] == texts[g..h] + [texts[h]];
  }

  lemma {:induction false} Resliced(texts: seq<Text>, lo: nat, g: nat, h: nat, hi: nat)
    requires lo <= g <= h <= hi <= |texts|
    ensures texts[lo..hi] == texts[lo..g] + (texts[g..h] + texts[h..hi])
  {
  }

  lemma {:induction false} OneMoreWouldFit(fits: Limit, batches: seq<seq<Text>>, other: seq<seq<Text>>, k: nat)
    requires Downward(fits) && NoneEmpty(batches) && AllFit(fits, other) && Concat(other) == Concat(batches)
    requires 0 < k < |batches| && k <= |other|
    requires |Prefix(other, k - 1)| <= |Prefix(batches, k - 1)|
    requires |Prefix(other, k)| > |Prefix(batches, k)|
    ensures fits(batches[k - 1] + [batches[k][0]])
  {
    var texts := Concat(batches);
    OneMoreIsSlice(batches, k);
    BatchIsSlice(other, k - 1);
    var lo, hi := |Prefix(other, k - 1)|, |Prefix(other, k)|;
    var g, h := |Prefix(batches, k - 1)|, |Prefix(batches, k)| + 1;
    Resliced(texts, lo, g, h, hi);
    assert fits(texts[lo..g] + (texts[g..h] + texts[h..hi]));
  }

  /** No order-preserving split that meets the limits has fewer batches. */
  lemma {:induction false} GreedyIsFewest(fits: Limit, batches: seq<seq<Text>>, other: seq<seq<Text>>)
    requires NoneEmpty(batches) && Greedy(fits, batches)
    requires Downward(fits) && AllFit(fits, other) && Concat(other) == Concat(batches)
    ensures |batches| <= |other|
  {
    if |other| < |batches| {
      var k := |other|;
      StaysAhead(fits, batches, other, k);
      assert other[..k] == other;
      BatchIsSlice(batches, k);
    }
  }

  // ---- the splitter

  /** A request holds one text at least, whatever the configured count. */
  function Effective(lim: Limits): Limits {
    if lim.maxTexts < 1 then lim.(maxTexts := 1) else lim
  }

  lemma {:induction false} Pushed(enc: Encoder, batch: seq<Text>, text: Text)
    ensures Chars(batch + [text]) == Chars(batch) + |text|
    ensures BodyBytes(enc, batch + [text]) == BodyBytes(enc, batch) + |enc(text)| + (if batch == [] then 0 else 1)
    ensures |Body(enc, batch + [text])| == BodyBytes(enc, batch + [text])
  {
    var n := |batch|;
    assert (batch + [text])[..n] == batch && (batch + [text])[n] == text;
    BodyIsCounted(enc, batch + [text]);
  }

  /** The open batch begins with a text the last closed one had no room for. */
  ghost predicate Follows(fits: Limit, batches: seq<seq<Text>>, batch: seq<Text>) {
    batches == [] || batch == [] || !fits(batches[|batches| - 1] + [batch[0]])
  }

  lemma {:induction false} Closed(fits: Limit, batches: seq<seq<Text>>, batch: seq<Text>)
    requires NoneEmpty(batches) && Greedy(fits, batches) && AllFit(fits, batches)
    requires batch != [] && Follows(fits, batches, batch) && fits(batch)
    ensures NoneEmpty(batches + [batch]) && Greedy(fits, batches + [batch]) && AllFit(fits, batches + [batch])
    ensures Concat(batches + [batch]) == Concat(batches) + batch
  {
    ConcatAppends(batches, [batch]);
    ConcatCons(batch, []);
    assert [batch] + [] == [batch];
  }

  /** What holds after the texts `done`, with `batch` still open. */
  ghost predicate Splitting(fits: Limit, batches: seq<seq<Text>>, batch: seq<Text>, done: seq<Text>) {
    && Concat(batches) + batch == done
    && NoneEmpty(batches) && Greedy(fits, batches) && AllFit(fits, batches)
    && (batch == [] ==> batches == [])
    && (batch != [] ==> fits(batch) && Follows(fits, batches, batch))
  }

  lemma {:induction false} PushedOn(fits: Limit, batches: seq<seq<Text>>, batch: seq<Text>, done: seq<Text>, text: Text)
    requires Splitting(fits, batches, batch, done) && fits(batch + [text])
    ensures Splitting(fits, batches, batch + [text], done + [text])
  {
    Assoc(Concat(batches), batch, [text]);
    if batch != [] {
      assert (batch + [text])[0] == batch[0];
    }
  }

  lemma {:induction false} Started(fits: Limit, batches: seq<seq<Text>>, batch: seq<Text>, done: seq<Text>, text: Text)
    requires Splitting(fits, batches, batch, done) && batch != []
    requires !fits(batch + [text]) && fits([text])
    ensures Splitting(fits, batches + [batch], [text], done + [text])
  {
    Closed(fits, batches, batch);
  }

  ghost function Request(enc: Encoder, lim: Limits): Limit {
    batch => Fits(enc, Effective(lim), batch)
  }

  ghost predicate HasRoom(enc: Encoder, lim: Limits, batch: seq<Text>, text: Text) {
    batch == [] || (|batch| + 1 <= lim.maxTexts && Chars(batch) + |text| <= lim.maxChars
                    && BodyBytes(enc, batch) + 1 + |enc(text)| <= lim.maxBytes)
  }

  /** The splitter's own test decides what a request may hold. */
  ghost predicate Decides(fits: Limit, enc: Encoder, lim: Limits) {
    forall batch: seq<Text>, text: Text {:trigger HasRoom(enc, lim, batch, text)} ::
      FitsAlone(enc, lim, text) ==> (fits(batch + [text]) <==> HasRoom(enc, lim, batch, text))
  }

  lemma {:induction false} LimitsDecided(enc: Encoder, lim: Limits)
    ensures Downward(Request(enc, lim)) && Decides(Request(enc, lim), enc, lim)
  {
    var fits := Request(enc, lim);
    forall a: seq<Text>, part: seq<Text>, b: seq<Text> | fits(a + (part + b))
      ensures fits(part)
    {
      PartFits(enc, Effective(lim), a, part, b);
    }
    forall batch: seq<Text>, text: Text | FitsAlone(enc, lim, text)
      ensures fits(batch + [text]) <==> HasRoom(enc, lim, batch, text)
    {
      Pushed(enc, batch, text);
      CharsAreAll(batch + [text]);
    }
  }

  /** No order-preserving split of the same texts within the limits has fewer batches. */
  ghost predicate Fewest(fits: Limit, batches: seq<seq<Text>>) {
    forall other: seq<seq<Text>> ::
      AllFit(fits, other) && Concat(other) == Concat(batches) ==> |batches| <= |other|
  }

  lemma {:induction false} Finished(fits: Limit, batches: seq<seq<Text>>, batch: seq<Text>, texts: seq<Text>)
    requires Downward(fits) && Splitting(fits, batches, batch, texts[..|texts|])
    ensures var all := if batch == [] then batches else batches + [batch];
      NoneEmpty(all) && AllFit(fits, all) && Concat(all) == texts && Fewest(fits, all)
  {
    if batch != [] {
      Closed(fits, batches, batch);
    }
    var all := if batch == [] then batches else batches + [batch];
    forall other: seq<seq<Text>> | AllFit(fits, other) && Concat(other) == Concat(all)
      ensures |all| <= |other|
    {
      GreedyIsFewest(fits, all, other);
    }
  }

  ghost predicate AllFitAlone(enc: Encoder, lim: Limits, texts: seq<Text>) {
    forall i :: 0 <= i < |texts| ==> FitsAlone(enc, lim, texts[i])
  }

  datatype Open = Open(batch: seq<Text>, chars: nat, body: nat)

  ghost predicate Counted(enc: Encoder, open: Open) {
    open.chars == Chars(open.batch) && open.body == BodyBytes(enc, open.batch)
  }

  /** One turn of the loop: the text goes into the open batch, or closes it and opens the next. */
  method Place(
    ghost fits: Limit, enc: Encoder, lim: Limits, batches: seq<seq<Text>>, open: Open, ghost done: seq<Text>,
    text: Text)
    returns (closed: seq<seq<Text>>, next: Open)
    requires Decides(fits, enc, lim) && Splitting(fits, batches, open.batch, done) && Counted(enc, open)
    requires FitsAlone(enc, lim, text)
    ensures Splitting(fits, closed, next.batch, done + [text]) && Counted(enc, next)
  {
    var Open(batch, chars, body) := open;
    closed := batches;
    var size := |enc(text)|;
    assert fits(batch + [text]) <==> HasRoom(enc, lim, batch, text);
    if batch != [] && (|batch| + 1 > lim.maxTexts || chars + |text| > lim.maxChars || body + 1 + size > lim.maxBytes) {
      assert [] + [text] == [text] && HasRoom(enc, lim, [], text);
      Started(fits, batches, batch, done, text);
      closed := closed + [batch];
      batch, chars, body := [], 0, ENVELOPE_BYTES;
    } else {
      PushedOn(fits, batches, batch, done, text);
    }
    Pushed(enc, batch, text);
    body := body + size + (if batch != [] then 1 else 0);
    next := Open(batch + [text], chars + |text|, body);
  }

  ghost predicate IsPrefix(some: seq<Text>, all: seq<Text>) {
    exists rest :: some + rest == all
  }

  lemma {:induction false} SentSoFar(sent: seq<Text>, batch: seq<Text>, texts: seq<Text>, i: nat)
    requires i <= |texts| && sent + batch == texts[..i]
    ensures IsPrefix(sent, texts)
  {
    assert sent + (batch + texts[i..]) == texts;
  }

  /** What a split comes to, done or refused. */
  ghost predicate Outcome(
    fits: Limit, enc: Encoder, lim: Limits, texts: seq<Text>, batches: seq<seq<Text>>, refused: bool)
  {
    && NoneEmpty(batches) && AllFit(fits, batches)
    && (refused <==> !AllFitAlone(enc, lim, texts))
    && (refused ==> IsPrefix(Concat(batches), texts))
    && (!refused ==> Concat(batches) == texts && Fewest(fits, batches))
  }

  lemma {:induction false} RefusedAt(
    fits: Limit, enc: Encoder, lim: Limits, texts: seq<Text>, batches: seq<seq<Text>>, batch: seq<Text>, i: nat)
    requires i < |texts| && Splitting(fits, batches, batch, texts[..i]) && !FitsAlone(enc, lim, texts[i])
    ensures Outcome(fits, enc, lim, texts, batches, true)
  {
    SentSoFar(Concat(batches), batch, texts, i);
  }

  lemma {:induction false} DoneWith(
    fits: Limit, enc: Encoder, lim: Limits, texts: seq<Text>, batches: seq<seq<Text>>, batch: seq<Text>)
    requires Downward(fits) && Splitting(fits, batches, batch, texts[..|texts|]) && AllFitAlone(enc, lim, texts)
    ensures Outcome(fits, enc, lim, texts, if batch == [] then batches else batches + [batch], false)
  {
    Finished(fits, batches, batch, texts);
  }

  /** The texts before the `i`-th are split, the last of them still open. */
  ghost predicate SplitTo(
    fits: Limit, enc: Encoder, lim: Limits, texts: seq<Text>, batches: seq<seq<Text>>, open: Open, i: nat)
  {
    && i <= |texts| && Splitting(fits, batches, open.batch, texts[..i]) && Counted(enc, open)
    && forall j :: 0 <= j < i ==> FitsAlone(enc, lim, texts[j])
  }

  lemma {:induction false} NothingYet(fits: Limit, enc: Encoder, lim: Limits, texts: seq<Text>)
    ensures SplitTo(fits, enc, lim, texts, [], Open([], 0, ENVELOPE_BYTES), 0)
  {
  }

  lemma {:induction false} OneMore(
    fits: Limit, enc: Encoder, lim: Limits, texts: seq<Text>, batches: seq<seq<Text>>, open: Open, i: nat)
    requires i < |texts| && Splitting(fits, batches, open.batch, texts[..i] + [texts[i]]) && Counted(enc, open)
    requires forall j :: 0 <= j <= i ==> FitsAlone(enc, lim, texts[j])
    ensures SplitTo(fits, enc, lim, texts, batches, open, i + 1)
  {
    assert texts[..i + 1] == texts[..i] + [texts[i]];
  }

  /** The loop: up to the end, or to the first text that fits no request. */
  method SplitUpTo(ghost fits: Limit, enc: Encoder, lim: Limits, texts: seq<Text>)
    returns (batches: seq<seq<Text>>, open: Open, i: nat)
    requires Decides(fits, enc, lim)
    ensures SplitTo(fits, enc, lim, texts, batches, open, i)
    ensures i < |texts| ==> !FitsAlone(enc, lim, texts[i])
  {
    batches, open, i := [], Open([], 0, ENVELOPE_BYTES), 0;
    NothingYet(fits, enc, lim, texts);
    while i < |texts|
      invariant SplitTo(fits, enc, lim, texts, batches, open, i)
    {
      var text := texts[i];
      if |text| > lim.maxChars || ENVELOPE_BYTES + |enc(text)| > lim.maxBytes {
        return;
      }
      batches, open := Place(fits, enc, lim, batches, open, texts[..i], text);
      OneMore(fits, enc, lim, texts, batches, open, i);
      i := i + 1;
    }
  }

  /** Refuses exactly when some text fits no request of its own; the batches completed before
      such a text have gone out by then. Otherwise every text is in one batch, in order, and
      the batches are as few as the limits allow. */
  method Split(enc: Encoder, lim: Limits, texts: seq<Text>) returns (batches: seq<seq<Text>>, refused: bool)
    ensures Outcome(Request(enc, lim), enc, lim, texts, batches, refused)
  {
    LimitsDecided(enc, lim);
    ghost var fits := Request(enc, lim);
    var open, i;
    batches, open, i := SplitUpTo(fits, enc, lim, texts);
    if i < |texts| {
      RefusedAt(fits, enc, lim, texts, batches, open.batch, i);
      return batches, true;
    }
    DoneWith(fits, enc, lim, texts, batches, open.batch);
    if open.batch != [] {
      batches := batches + [open.batch];
    }
    refused := false;
  }
}
