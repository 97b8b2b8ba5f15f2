/**
  The detector over the NER service: what becomes of the spans the service reports for a
  text, and of the answers for a batch of texts.
 */
module CorpNer {
  import opened Wrappers
  import opened Texts
  import opened Numbers
  import opened OffsetMap
  import opened Spans
  import opened NerClient

  const REGEX_SCORE: Number := Finite(1.0)

  function CategoryOf(tag: string): Option<string> {
    if tag == "ORGANIZATION" then Some("ORG") else if tag in KNOWN_TAGS then Some(tag) else None
  }

  /** Of a class the detector reports; the client lets only ordered offsets through. */
  predicate Known(span: ServiceSpan) { CategoryOf(span.tag).Some? && 0 <= span.start <= span.end }

  // ---- one text

  /** How offsets into the NFC form become offsets into the text: as they are, or by a map. */
  ghost predicate Maps(u: Unicode, text: Text, offsets: Option<Map>) {
    if u.nfc(text) == text then offsets == None else offsets.Some? && MapOk(u, text, u.nfc(text), offsets.value)
  }

  function StartIn(offsets: Option<Map>, pos: nat): nat {
    if offsets.None? then pos else StartOf(offsets.value, pos)
  }

  function EndIn(offsets: Option<Map>, pos: nat): int {
    if offsets.None? then pos else EndOf(offsets.value, pos)
  }

  function Slice(text: Text, start: nat, end: int): Text {
    if start <= end <= |text| then text[start..end] else []
  }

  /** The finding a span of a known class stands for. */
  function FindingOf(text: Text, offsets: Option<Map>, span: ServiceSpan): Finding
    requires Known(span)
  {
    var start, end := StartIn(offsets, span.start), EndIn(offsets, span.end);
    Finding(Slice(text, start, end), CategoryOf(span.tag).value, start, end,
            if span.score.None? then REGEX_SCORE else span.score.value)
  }

  /** The contract every caller relies on: offsets into this text, quoting this text. */
  predicate Quotes(text: Text, f: Finding) {
    0 <= f.start < f.end <= |text| && f.text == text[f.start..f.end]
  }

  // ---- what a finding says of its span

  /** The character at `q` is one the span is about: its own offsets in a text that is in NFC form,
      and else whatever of the text the span of the NFC form touches. */
  ghost predicate Touched(offsets: Option<Map>, q: nat, span: ServiceSpan)
    requires 0 <= span.start <= span.end
  {
    if offsets.None? then span.start <= q < span.end
    else exists k :: 0 <= k < |offsets.value.runs|
                     && offsets.value.runs[k].oStart <= q < offsets.value.runs[k].oEnd
                     && Touches(offsets.value.runs[k], q, span.start, span.end)
  }

  /** The class under the detector's own name. */
  predicate Labelled(tag: string, category: string) {
    || (tag == "ORGANIZATION" && category == "ORG")
    || (tag in {"PERSON", "LOCATION", "LOGIN", "PASSWORD", "AUTH_TOKEN", "SECRET_KEY", "CONTRACT_NUMBER", "SECRET"}
        && category == tag)
  }

  /** The finding is the span's: its class, its score or 1.0, and exactly the characters it is about. */
  ghost predicate Marks(text: Text, offsets: Option<Map>, span: ServiceSpan, f: Finding)
    requires 0 <= span.start <= span.end
  {
    && Labelled(span.tag, f.category)
    && f.score == (match span.score case None => Finite(1.0) case Some(score) => score)
    && (forall q: nat :: q < |text| ==> (f.start <= q < f.end <==> Touched(offsets, q, span)))
  }

  /** Something of the text is what the span is about. */
  ghost predicate Tells(text: Text, offsets: Option<Map>, span: ServiceSpan)
    requires 0 <= span.start <= span.end
  {
    exists q: nat :: q < |text| && Touched(offsets, q, span)
  }

  lemma {:induction false} EndInText(u: Unicode, text: Text, offsets: Option<Map>, pos: nat)
    requires Maps(u, text, offsets) && pos <= |u.nfc(text)|
    ensures EndIn(offsets, pos) <= |text|
  {
    if offsets.Some? && pos > 0 {
      MappedSpanIsNonEmpty(u, text, u.nfc(text), offsets.value, pos - 1, pos);
    }
  }

  lemma {:induction false} CoversTouched(u: Unicode, text: Text, offsets: Option<Map>, span: ServiceSpan, q: nat)
    requires Maps(u, text, offsets) && 0 <= span.start <= span.end <= |u.nfc(text)| && q < |text|
    ensures StartIn(offsets, span.start) <= q < EndIn(offsets, span.end) <==> Touched(offsets, q, span)
  {
    if offsets.Some? {
      var m := offsets.value;
      var k := EveryCharacterInARun(m.runs, m.origLen, m.nfcLen, q);
      MappedSpanIsExact(u, text, u.nfc(text), m, span.start, span.end, k, q);
      if Touched(offsets, q, span) {
        var k' :| 0 <= k' < |m.runs| && m.runs[k'].oStart <= q < m.runs[k'].oEnd
          && Touches(m.runs[k'], q, span.start, span.end);
        MappedSpanIsExact(u, text, u.nfc(text), m, span.start, span.end, k', q);
      }
    }
  }

  lemma {:induction false} CategoryIsLabelled(tag: string)
    requires CategoryOf(tag).Some?
    ensures Labelled(tag, CategoryOf(tag).value)
  {
  }

  lemma {:induction false} FindingMarks(u: Unicode, text: Text, offsets: Option<Map>, span: ServiceSpan)
    requires Maps(u, text, offsets) && Known(span) && span.end <= |u.nfc(text)|
    ensures Marks(text, offsets, span, FindingOf(text, offsets, span))
  {
    var f := FindingOf(text, offsets, span);
    CategoryIsLabelled(span.tag);
    forall q: nat | q < |text|
      ensures f.start <= q < f.end <==> Touched(offsets, q, span)
    {
      CoversTouched(u, text, offsets, span, q);
    }
  }

  /** A span within the text becomes a finding that is the span's and quotes the text, if and only if
      it is about something of the text; every non-empty span is. */
  lemma {:induction false} SpanBecomesFinding(u: Unicode, text: Text, offsets: Option<Map>, span: ServiceSpan)
    requires Maps(u, text, offsets) && Known(span) && span.end <= |u.nfc(text)|
    ensures var f := FindingOf(text, offsets, span);
            && Marks(text, offsets, span, f)
            && (f.start < f.end <==> Tells(text, offsets, span)) && (f.start < f.end ==> Quotes(text, f))
    ensures span.start < span.end ==> Tells(text, offsets, span)
  {
    var f := FindingOf(text, offsets, span);
    FindingMarks(u, text, offsets, span);
    EndInText(u, text, offsets, span.end);
    if f.start < f.end {
      assert Touched(offsets, f.start, span);
    }
    if offsets.Some? && span.start < span.end {
      MappedSpanIsNonEmpty(u, text, u.nfc(text), offsets.value, span.start, span.end);
    }
  }

  /** The answers of the service the detector will not build on. */
  ghost predicate Refused(u: Unicode, text: Text, result: AnalyzeResult) {
    || result.truncated
    || (result.spans != [] && u.nfc(text) != text && !Mappable(u, text))
    || (exists span :: span in result.spans && Reported(span) && span.end > |u.nfc(text)|)
  }

  /** A span of a class the detector reports, in any case a well-formed one. */
  predicate Reported(span: ServiceSpan) {
    0 <= span.start <= span.end && exists category :: category in {span.tag, "ORG"} && Labelled(span.tag, category)
  }

  lemma {:induction false} ReportedIsKnown(span: ServiceSpan)
    ensures Reported(span) <==> Known(span)
  {
    if Known(span) {
      CategoryIsLabelled(span.tag);
    }
  }

  ghost predicate PastTheEnd(u: Unicode, text: Text, span: ServiceSpan) {
    Known(span) && span.end > |u.nfc(text)|
  }

  /** The chunks of the text normalise to the normalised text. */
  ghost predicate Mappable(u: Unicode, text: Text) {
    var chunks := ChunksFrom(u, text, 0);
    ChunksTile(chunks, 0, |text|) && Joined(u, text, chunks, |chunks|) == u.nfc(text)
  }

  ghost predicate FromSpan(text: Text, offsets: Option<Map>, spans: seq<ServiceSpan>, f: Finding) {
    exists span :: span in spans && Known(span) && f == FindingOf(text, offsets, span)
  }

  ghost predicate Sound(text: Text, offsets: Option<Map>, spans: seq<ServiceSpan>, fs: seq<Finding>) {
    forall i :: 0 <= i < |fs| ==> Quotes(text, fs[i]) && FromSpan(text, offsets, spans, fs[i])
  }

  ghost predicate Complete(text: Text, offsets: Option<Map>, spans: seq<ServiceSpan>, fs: set<Finding>) {
    forall i :: 0 <= i < |spans| && Known(spans[i]) && Tells(text, offsets, spans[i]) ==>
      FindingOf(text, offsets, spans[i]) in fs
  }

  ghost predicate MarksOneOf(text: Text, offsets: Option<Map>, spans: seq<ServiceSpan>, f: Finding) {
    exists span :: span in spans && Reported(span) && Marks(text, offsets, span, f)
  }

  /** A finding of the span is kept, or one that overlaps it: of no lower priority, if every score is
      a number. */
  ghost predicate AnswersFor(text: Text, offsets: Option<Map>, numbered: bool, span: ServiceSpan, fs: seq<Finding>)
    requires 0 <= span.start <= span.end
  {
    exists f :: Marks(text, offsets, span, f) && Quotes(text, f)
                && (f in fs || (if numbered then Beaten(f, fs) else Crossed(f, fs)))
  }

  /** What the findings for a text are: they quote the text and do not overlap; each is the finding of
      a span of the answer, and each span of a reported class that is about something of the text
      has its finding among them, or one that overlaps it. */
  ghost predicate Answer(text: Text, offsets: Option<Map>, spans: seq<ServiceSpan>, fs: seq<Finding>) {
    && SortedBy(fs, StartLe) && Disjoint(fs)
    && (forall f :: f in fs ==> Quotes(text, f) && MarksOneOf(text, offsets, spans, f))
    && (forall span :: span in spans && Reported(span) && Tells(text, offsets, span) ==>
          AnswersFor(text, offsets, Numbered(spans), span, fs))
  }

  predicate Numbered(spans: seq<ServiceSpan>) {
    forall span :: span in spans ==> span.score != Some(NaN)
  }

  ghost function Members(fs: seq<Finding>): set<Finding> { set f | f in fs }

  /** One span: a finding, or nothing when its class is unknown or nothing is left of it. */
  method Candidate(u: Unicode, text: Text, offsets: Option<Map>, span: ServiceSpan) returns (fs: seq<Finding>)
    requires Maps(u, text, offsets) && !PastTheEnd(u, text, span)
    ensures fs == [] || (Known(span) && fs == [FindingOf(text, offsets, span)] && Quotes(text, fs[0]))
    ensures Known(span) && Tells(text, offsets, span) ==> fs == [FindingOf(text, offsets, span)]
  {
    if !Known(span) {
      return [];
    }
    var f := FindingOf(text, offsets, span);
    SpanBecomesFinding(u, text, offsets, span);
    fs := if f.start < f.end then [f] else [];
  }

  /** The spans turned into findings, one by one; none of them if a span is past the end. */
  method Candidates(u: Unicode, text: Text, offsets: Option<Map>, spans: seq<ServiceSpan>)
    returns (r: Option<seq<Finding>>)
    requires Maps(u, text, offsets)
    ensures r.None? <==> exists span :: span in spans && PastTheEnd(u, text, span)
    ensures r.Some? ==> Sound(text, offsets, spans, r.value) && Complete(text, offsets, spans, Members(r.value))
  {
    var raw: seq<Finding> := [];
    for i := 0 to |spans|
      invariant Gathered(u, text, offsets, spans, i, raw)
    {
      var span := spans[i];
      if Known(span) && span.end > |u.nfc(text)| {
        assert PastTheEnd(u, text, span);
        return None;
      }
      var fs := Candidate(u, text, offsets, span);
      Added(u, text, offsets, spans, i, raw, fs);
      raw := raw + fs;
    }
    assert spans[..|spans|] == spans;
    return Some(raw);
  }

  /** The findings of the first `i` spans, none of which is past the end. */
  ghost predicate Gathered(
    u: Unicode, text: Text, offsets: Option<Map>, spans: seq<ServiceSpan>, i: nat, raw: seq<Finding>)
  {
    && i <= |spans| && (forall k :: 0 <= k < i ==> !PastTheEnd(u, text, spans[k]))
    && Sound(text, offsets, spans, raw) && Complete(text, offsets, spans[..i], Members(raw))
  }

  lemma {:induction false} Added(
    u: Unicode, text: Text, offsets: Option<Map>, spans: seq<ServiceSpan>, i: nat, raw: seq<Finding>, fs: seq<Finding>)
    requires i < |spans| && Gathered(u, text, offsets, spans, i, raw) && !PastTheEnd(u, text, spans[i])
    requires fs == [] || (Known(spans[i]) && fs == [FindingOf(text, offsets, spans[i])] && Quotes(text, fs[0]))
    requires Known(spans[i]) && Tells(text, offsets, spans[i]) ==> fs == [FindingOf(text, offsets, spans[i])]
    ensures Gathered(u, text, offsets, spans, i + 1, raw + fs)
  {
    if fs != [] {
      assert spans[i] in spans;
      assert FromSpan(text, offsets, spans, fs[0]);
    }
    assert Members(raw) <= Members(raw + fs);
    forall k | 0 <= k < i + 1 && Known(spans[k]) && Tells(text, offsets, spans[k])
      ensures FindingOf(text, offsets, spans[k]) in Members(raw + fs)
    {
      if k < i {
        assert spans[..i][k] == spans[k];
      } else {
        assert fs[0] in raw + fs;
      }
    }
  }

  lemma {:induction false} NumberedAreScored(
    text: Text, offsets: Option<Map>, spans: seq<ServiceSpan>, raw: seq<Finding>)
    requires Sound(text, offsets, spans, raw) && Numbered(spans)
    ensures Scored(raw)
  {
    forall f | f in raw
      ensures !f.score.NaN?
    {
      var i :| 0 <= i < |raw| && raw[i] == f;
      assert FromSpan(text, offsets, spans, raw[i]);
    }
  }

  /** What the service said of one text, as the client passed it on, with no span past the end. */
  ghost predicate Usable(u: Unicode, text: Text, offsets: Option<Map>, spans: seq<ServiceSpan>) {
    Maps(u, text, offsets) && forall span :: span in spans ==> !PastTheEnd(u, text, span)
  }

  lemma {:induction false} KeptMark(
    u: Unicode, text: Text, offsets: Option<Map>, spans: seq<ServiceSpan>, raw: seq<Finding>, f: Finding)
    requires Usable(u, text, offsets, spans) && Sound(text, offsets, spans, raw) && f in raw
    ensures Quotes(text, f) && MarksOneOf(text, offsets, spans, f)
  {
    var i :| 0 <= i < |raw| && raw[i] == f;
    assert FromSpan(text, offsets, spans, raw[i]);
    var span :| span in spans && Known(span) && f == FindingOf(text, offsets, span);
    ReportedIsKnown(span);
    assert !PastTheEnd(u, text, span);
    SpanBecomesFinding(u, text, offsets, span);
  }

  lemma {:induction false} SpanIsAnswered(
    u: Unicode, text: Text, offsets: Option<Map>, spans: seq<ServiceSpan>, raw: seq<Finding>, kept: seq<Finding>,
    span: ServiceSpan)
    requires Usable(u, text, offsets, spans) && Complete(text, offsets, spans, Members(raw))
    requires span in spans && Reported(span) && Tells(text, offsets, span)
    requires forall f :: f in raw ==> f in kept || (if Numbered(spans) then Beaten(f, kept) else Crossed(f, kept))
    ensures AnswersFor(text, offsets, Numbered(spans), span, kept)
  {
    ReportedIsKnown(span);
    assert !PastTheEnd(u, text, span);
    SpanBecomesFinding(u, text, offsets, span);
    assert FindingOf(text, offsets, span) in Members(raw);
  }

  lemma {:induction false} KeptAnswers(
    u: Unicode, text: Text, offsets: Option<Map>, spans: seq<ServiceSpan>, raw: seq<Finding>, kept: seq<Finding>)
    requires Usable(u, text, offsets, spans)
    requires Sound(text, offsets, spans, raw) && Complete(text, offsets, spans, Members(raw))
    requires SortedBy(kept, StartLe) && Disjoint(kept)
    requires forall f :: f in kept ==> f in raw
    requires forall f :: f in raw ==> f in kept || Crossed(f, kept)
    requires Scored(raw) ==> forall f :: f in raw ==> f in kept || Beaten(f, kept)
    ensures Answer(text, offsets, spans, kept)
  {
    if Numbered(spans) {
      NumberedAreScored(text, offsets, spans, raw);
    }
    forall f | f in kept
      ensures Quotes(text, f) && MarksOneOf(text, offsets, spans, f)
    {
      KeptMark(u, text, offsets, spans, raw, f);
    }
    forall span | span in spans && Reported(span) && Tells(text, offsets, span)
      ensures AnswersFor(text, offsets, Numbered(spans), span, kept)
    {
      SpanIsAnswered(u, text, offsets, spans, raw, kept, span);
    }
  }

  /** The findings for one text, or a refusal. The spans are ones the client has checked. */
  method Findings(u: Unicode, text: Text, result: AnalyzeResult)
    returns (r: Option<seq<Finding>>, ghost offsets: Option<Map>)
    requires u.Sane() && ResultOk(result)
    ensures r.None? <==> Refused(u, text, result)
    ensures r.Some? && result.spans == [] ==> r.value == []
    ensures r.Some? && result.spans != [] ==> Maps(u, text, offsets) && Answer(text, offsets, result.spans, r.value)
  {
    offsets := None;
    if result.truncated {
      return None, None;
    }
    if result.spans == [] {
      return Some([]), None;
    }
    var nfc := u.nfc(text);
    var m: Option<Map> := None;
    if nfc != text {
      m := BuildMap(u, text, nfc);
      if m.None? {
        return None, None;
      }
    }
    offsets := m;
    forall span | span in result.spans
      ensures PastTheEnd(u, text, span) <==> Reported(span) && span.end > |u.nfc(text)|
    {
      ReportedIsKnown(span);
    }
    var raw := Candidates(u, text, m, result.spans);
    if raw.None? {
      return None, m;
    }
    var kept := Deduplicate(raw.value);
    KeptAnswers(u, text, m, result.spans, raw.value, kept);
    r := Some(kept);
  }

  /** What `Findings` answers, whatever way it maps offsets. */
  ghost predicate Answered(u: Unicode, text: Text, result: AnalyzeResult, fs: seq<Finding>) {
    if result.spans == [] then fs == []
    else exists offsets :: Maps(u, text, offsets) && Answer(text, offsets, result.spans, fs)
  }

  method FindingsOrNone(u: Unicode, text: Text, result: AnalyzeResult) returns (r: Option<seq<Finding>>)
    requires u.Sane() && ResultOk(result)
    ensures r.None? <==> Refused(u, text, result)
    ensures r.Some? ==> Answered(u, text, result, r.value)
  {
    var fs, offsets := Findings(u, text, result);
    r := fs;
  }

  lemma {:induction false} AnswersQuote(u: Unicode, text: Text, result: AnalyzeResult, fs: seq<Finding>)
    requires Answered(u, text, result, fs)
    ensures Disjoint(fs) && forall f :: f in fs ==> Quotes(text, f)
  {
  }

  // ---- a batch of texts

  /** The places of the texts that are not blank, in order. */
  function Scanned(blank: Text -> bool, texts: seq<Text>): (places: seq<nat>)
    ensures forall k :: 0 <= k < |places| ==> places[k] < |texts| && !blank(texts[places[k]])
    ensures forall j, k :: 0 <= j < k < |places| ==> places[j] < places[k]
    ensures forall i :: 0 <= i < |texts| && !blank(texts[i]) ==> i in places
  {
    if texts == [] then []
    else
      var n := |texts| - 1;
      var rest := Scanned(blank, texts[..n]);
      if blank(texts[n]) then rest else rest + [n]
  }

  function At(texts: seq<Text>, places: seq<nat>): seq<Text>
    requires forall k :: 0 <= k < |places| ==> places[k] < |texts|
  {
    seq(|places|, k requires 0 <= k < |places| => texts[places[k]])
  }

  type Client = seq<Text> -> Option<seq<AnalyzeResult>>

  /** The client passes on only spans it has checked. */
  ghost predicate Checked(client: Client) {
    forall texts: seq<Text> :: client(texts).Some? ==> ResultsOk(client(texts).value)
  }

  /** The answer is no use: none, the wrong count, or one text refused. */
  ghost predicate Unusable(u: Unicode, texts: seq<Text>, answer: Option<seq<AnalyzeResult>>) {
    || answer.None?
    || |answer.value| != |texts|
    || exists k :: 0 <= k < |texts| && Refused(u, texts[k], answer.value[k])
  }

  /** The answers, put at the places of their texts. */
  method Spread(u: Unicode, texts: seq<Text>, places: seq<nat>, results: seq<AnalyzeResult>)
    returns (r: Option<seq<seq<Finding>>>)
    requires u.Sane() && ResultsOk(results) && |results| == |places|
    requires forall k :: 0 <= k < |places| ==> places[k] < |texts|
    requires forall j, k :: 0 <= j < k < |places| ==> places[j] < places[k]
    ensures r.None? <==> exists k :: 0 <= k < |places| && Refused(u, texts[places[k]], results[k])
    ensures r.Some? ==> |r.value| == |texts|
    ensures r.Some? ==> forall k :: 0 <= k < |places| ==> Answered(u, texts[places[k]], results[k], r.value[places[k]])
    ensures r.Some? ==> forall i :: 0 <= i < |texts| && i !in places ==> r.value[i] == []
  {
    var out: seq<seq<Finding>> := seq(|texts|, _ => []);
    for k := 0 to |places|
      invariant |out| == |texts|
      invariant forall j :: 0 <= j < k ==> !Refused(u, texts[places[j]], results[j])
      invariant forall j :: 0 <= j < k ==> Answered(u, texts[places[j]], results[j], out[places[j]])
      invariant forall i :: 0 <= i < |texts| && i !in places ==> out[i] == []
    {
      var fs := FindingsOrNone(u, texts[places[k]], results[k]);
      if fs.None? {
        return None;
      }
      out := out[places[k] := fs.value];
    }
    return Some(out);
  }

  /** One list of findings per text, in order; nothing for a blank text, which is not sent.
      Anything short of a full answer for every other text fails the whole batch. */
  method DetectBatch(u: Unicode, blank: Text -> bool, client: Client, texts: seq<Text>)
    returns (r: Option<seq<seq<Finding>>>)
    requires u.Sane() && Checked(client)
    ensures var places := Scanned(blank, texts);
      r.None? <==> places != [] && Unusable(u, At(texts, places), client(At(texts, places)))
    ensures r.Some? ==> |r.value| == |texts|
    ensures r.Some? ==> forall i :: 0 <= i < |texts| && blank(texts[i]) ==> r.value[i] == []
    ensures r.Some? ==>
      var places := Scanned(blank, texts);
      forall k :: 0 <= k < |places| ==>
        Answered(u, texts[places[k]], client(At(texts, places)).value[k], r.value[places[k]])
  {
    var places := Scanned(blank, texts);
    if places == [] {
      return Some(seq(|texts|, _ => []));
    }
    var sent := At(texts, places);
    var results := client(sent);
    if results.None? || |results.value| != |sent| {
      return None;
    }
    r := Spread(u, texts, places, results.value);
  }
}
