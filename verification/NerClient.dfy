/** The NER client: answers of the service read strictly, and one answer per text, in order. */
module NerClient {
  import opened Wrappers
  import opened Texts
  import opened Seqs
  import opened Numbers
  import opened Nodes
  import opened NerBatches

  /** A span as the client passes it on: offsets into the NFC form of the text. */
  datatype ServiceSpan = ServiceSpan(start: int, end: int, tag: string, score: Option<Number>, source: string)

  datatype AnalyzeResult = AnalyzeResult(spans: seq<ServiceSpan>, truncated: bool)

  const KNOWN_TAGS: set<string> :=
    {"PERSON", "LOCATION", "ORGANIZATION", "LOGIN", "PASSWORD", "AUTH_TOKEN", "SECRET_KEY", "CONTRACT_NUMBER", "SECRET"}

  const KNOWN_SOURCES: set<string> := {"ner", "regex", "both"}

  predicate SpanOk(s: ServiceSpan) {
    0 <= s.start <= s.end && s.tag in KNOWN_TAGS && s.source in KNOWN_SOURCES
  }

  predicate ResultOk(r: AnalyzeResult) {
    forall i :: 0 <= i < |r.spans| ==> SpanOk(r.spans[i])
  }

  predicate ResultsOk(rs: seq<AnalyzeResult>) {
    forall i :: 0 <= i < |rs| ==> ResultOk(rs[i])
  }

  // ---- reading an answer

  /** No score at all, or any number: also one that is infinite, and one that is not a number. */
  function ReadScore(score: Option<Node>): Option<Option<Number>> {
    if score.None? || score.value.Null? then Some(None)
    else if score.value.Int? then Some(Some(Finite(score.value.integer as real)))
    else if score.value.Float? then Some(Some(score.value.number))
    else None
  }

  function ReadSpan(raw: Node): (r: Option<ServiceSpan>)
    ensures r.Some? ==> SpanOk(r.value)
  {
    if !raw.Dict? then None
    else
      var start, end, tag := Get(raw.entries, "start"), Get(raw.entries, "end"), Get(raw.entries, "label");
      var source, score := Get(raw.entries, "source"), ReadScore(Get(raw.entries, "score"));
      if start.None? || !start.value.Int? || end.None? || !end.value.Int? then None
      else if start.value.integer < 0 || end.value.integer < start.value.integer then None
      else if tag.None? || !tag.value.Str? || tag.value.text !in KNOWN_TAGS then None
      else if source.None? || !source.value.Str? || source.value.text !in KNOWN_SOURCES then None
      else if score.None? then None
      else Some(ServiceSpan(start.value.integer, end.value.integer, tag.value.text, score.value, source.value.text))
  }

  function ReadSpans(raw: seq<Node>): (r: Option<seq<ServiceSpan>>)
    ensures r.Some? ==> |r.value| == |raw| && forall i :: 0 <= i < |r.value| ==> SpanOk(r.value[i])
  {
    if raw == [] then Some([])
    else
      var first, rest := ReadSpan(raw[0]), ReadSpans(raw[1..]);
      if first.None? || rest.None? then None else Some([first.value] + rest.value)
  }

  function ReadResult(item: Node): (r: Option<AnalyzeResult>)
    ensures r.Some? ==> ResultOk(r.value)
  {
    if !item.Dict? then None
    else
      var spans, truncated := Get(item.entries, "spans"), Get(item.entries, "truncated");
      if spans.None? || !spans.value.List? || truncated.None? || !truncated.value.Bool? then None
      else
        var read := ReadSpans(spans.value.items);
        if read.None? then None else Some(AnalyzeResult(read.value, truncated.value.truth))
  }

  function ReadResults(items: seq<Node>): (r: Option<seq<AnalyzeResult>>)
    ensures r.Some? ==> |r.value| == |items| && ResultsOk(r.value)
  {
    if items == [] then Some([])
    else
      var first, rest := ReadResult(items[0]), ReadResults(items[1..]);
      if first.None? || rest.None? then None else Some([first.value] + rest.value)
  }

  /** An answer with as many results as texts were sent, each of them as the contract says,
      or nothing at all. */
  function ReadAnswer(raw: Node, expected: nat): (r: Option<seq<AnalyzeResult>>)
    ensures r.Some? ==> |r.value| == expected && ResultsOk(r.value)
  {
    if !raw.Dict? then None
    else
      var items := Get(raw.entries, "results");
      if items.None? || !items.value.List? || |items.value.items| != expected then None
      else ReadResults(items.value.items)
  }

  // ---- and what it was written from

  function WriteSpan(s: ServiceSpan): Node {
    Dict([(Name("start"), Int(s.start)), (Name("end"), Int(s.end)), (Name("label"), Str(s.tag)),
          (Name("score"), if s.score.None? then Null else Float(s.score.value)), (Name("source"), Str(s.source))])
  }

  function WriteSpans(spans: seq<ServiceSpan>): seq<Node> {
    if spans == [] then [] else [WriteSpan(spans[0])] + WriteSpans(spans[1..])
  }

  function WriteResult(r: AnalyzeResult): Node {
    Dict([(Name("spans"), List(WriteSpans(r.spans))), (Name("truncated"), Bool(r.truncated))])
  }

  function WriteResults(rs: seq<AnalyzeResult>): (items: seq<Node>)
    ensures |items| == |rs|
  {
    if rs == [] then [] else [WriteResult(rs[0])] + WriteResults(rs[1..])
  }

  function WriteAnswer(rs: seq<AnalyzeResult>): Node {
    Dict([(Name("results"), List(WriteResults(rs)))])
  }

  /** A score as the service may write it: left out or null, or any number. */
  predicate WritesScore(written: Option<Node>, score: Option<Number>) {
    match score
    case None => written == None || written == Some(Null)
    case Some(x) => written == Some(Float(x))
                    || (written.Some? && written.value.Int? && x == Finite(written.value.integer as real))
  }

  /** A span is read from what the contract says it is, in whatever order and beside whatever else,
      and from nothing else. */
  lemma {:induction false} ReadSpanExactly(raw: Node, s: ServiceSpan)
    ensures ReadSpan(raw) == Some(s) <==>
      && raw.Dict? && SpanOk(s)
      && Get(raw.entries, "start") == Some(Int(s.start)) && Get(raw.entries, "end") == Some(Int(s.end))
      && Get(raw.entries, "label") == Some(Str(s.tag)) && Get(raw.entries, "source") == Some(Str(s.source))
      && WritesScore(Get(raw.entries, "score"), s.score)
  {
  }

  lemma {:induction false} SpanRoundTrip(s: ServiceSpan)
    requires SpanOk(s)
    ensures ReadSpan(WriteSpan(s)) == Some(s)
  {
    var entries := WriteSpan(s).entries;
    GetAt(entries, "start", 0);
    GetAt(entries, "end", 1);
    GetAt(entries, "label", 2);
    GetAt(entries, "score", 3);
    GetAt(entries, "source", 4);
  }

  lemma {:induction false} ReadSpanMore(item: Node, items: seq<Node>, spans: seq<ServiceSpan>)
    requires spans != [] && ReadSpan(item) == Some(spans[0]) && ReadSpans(items) == Some(spans[1..])
    ensures ReadSpans([item] + items) == Some(spans)
  {
    assert ([item] + items)[1..] == items;
    assert spans == [spans[0]] + spans[1..];
  }

  lemma {:induction false} SpansRoundTrip(spans: seq<ServiceSpan>)
    requires forall i :: 0 <= i < |spans| ==> SpanOk(spans[i])
    ensures ReadSpans(WriteSpans(spans)) == Some(spans)
  {
    if spans != [] {
      SpanRoundTrip(spans[0]);
      SpansRoundTrip(spans[1..]);
      ReadSpanMore(WriteSpan(spans[0]), WriteSpans(spans[1..]), spans);
    }
  }

  lemma {:induction false} ResultRoundTrip(r: AnalyzeResult)
    requires ResultOk(r)
    ensures ReadResult(WriteResult(r)) == Some(r)
  {
    var entries := WriteResult(r).entries;
    GetAt(entries, "spans", 0);
    GetAt(entries, "truncated", 1);
    SpansRoundTrip(r.spans);
  }

  lemma {:induction false} ReadOneMore(item: Node, items: seq<Node>, rs: seq<AnalyzeResult>)
    requires rs != [] && ReadResult(item) == Some(rs[0]) && ReadResults(items) == Some(rs[1..])
    ensures ReadResults([item] + items) == Some(rs)
  {
    assert ([item] + items)[1..] == items;
    assert rs == [rs[0]] + rs[1..];
  }

  lemma {:induction false} ResultsRoundTrip(rs: seq<AnalyzeResult>)
    requires ResultsOk(rs)
    ensures ReadResults(WriteResults(rs)) == Some(rs)
  {
    if rs != [] {
      ResultRoundTrip(rs[0]);
      ResultsRoundTrip(rs[1..]);
      ReadOneMore(WriteResult(rs[0]), WriteResults(rs[1..]), rs);
    }
  }

  /** Every answer the contract allows is read back as it was meant. */
  lemma {:induction false} AnswerRoundTrip(rs: seq<AnalyzeResult>)
    requires ResultsOk(rs)
    ensures ReadAnswer(WriteAnswer(rs), |rs|) == Some(rs)
  {
    GetAt(WriteAnswer(rs).entries, "results", 0);
    ResultsRoundTrip(rs);
  }

  // ---- analysing

  /** The service: what it answers the n-th request with, or no answer. */
  type Service = (nat, seq<Text>) -> Option<Node>

  function Reply(service: Service, sent: seq<seq<Text>>, n: nat): Option<seq<AnalyzeResult>>
    requires n < |sent|
  {
    var raw := service(n, sent[n]);
    if raw.None? then None else ReadAnswer(raw.value, |sent[n]|)
  }

  ghost predicate AllAnswered(service: Service, sent: seq<seq<Text>>, n: nat)
    requires n <= |sent|
  {
    forall k :: 0 <= k < n ==> Reply(service, sent, k).Some?
  }

  /** The results of the first `n` requests, one after another. */
  ghost function Replies(service: Service, sent: seq<seq<Text>>, n: nat): (rs: seq<AnalyzeResult>)
    requires n <= |sent| && AllAnswered(service, sent, n)
    ensures |rs| == |Prefix(sent, n)| && ResultsOk(rs)
  {
    if n == 0 then []
    else
      PrefixGrows(sent, n - 1);
      Replies(service, sent, n - 1) + Reply(service, sent, n - 1).value
  }

  /** The result for a text is the one at its place in the answer to its own request. */
  lemma {:induction false} ResultOfText(service: Service, sent: seq<seq<Text>>, n: nat, k: nat)
    requires n < |sent| && k < |sent[n]| && AllAnswered(service, sent, |sent|)
    ensures |Prefix(sent, n)| + k < |Concat(sent)| && Concat(sent)[|Prefix(sent, n)| + k] == sent[n][k]
    ensures |Prefix(sent, n)| + k < |Replies(service, sent, |sent|)|
    ensures Replies(service, sent, |sent|)[|Prefix(sent, n)| + k] == Reply(service, sent, n).value[k]
  {
    BatchIsSlice(sent, n);
    assert Concat(sent)[|Prefix(sent, n)|..|Prefix(sent, n + 1)|][k] == sent[n][k];
    RepliesGrow(service, sent, n + 1, |sent|);
    assert Replies(service, sent, n + 1) <= Replies(service, sent, |sent|);
  }

  lemma {:induction false} RepliesGrow(service: Service, sent: seq<seq<Text>>, n: nat, m: nat)
    requires n <= m <= |sent| && AllAnswered(service, sent, m)
    ensures Replies(service, sent, n) <= Replies(service, sent, m)
    decreases m - n
  {
    if n < m {
      RepliesGrow(service, sent, n, m - 1);
    }
  }

  ghost predicate AnsweredTo(service: Service, batches: seq<seq<Text>>, n: nat, results: seq<AnalyzeResult>) {
    n <= |batches| && AllAnswered(service, batches, n) && results == Replies(service, batches, n)
  }

  lemma {:induction false} OneMoreAnswer(service: Service, batches: seq<seq<Text>>, n: nat, results: seq<AnalyzeResult>)
    requires n < |batches| && AnsweredTo(service, batches, n, results) && Reply(service, batches, n).Some?
    ensures AnsweredTo(service, batches, n + 1, results + Reply(service, batches, n).value)
  {
  }

  /** The requests one by one, up to the first that is not answered as it should be. */
  method Ask(service: Service, batches: seq<seq<Text>>) returns (r: Option<seq<AnalyzeResult>>, asked: nat)
    ensures asked <= |batches|
    ensures r.None? <==> !AllAnswered(service, batches[..asked], asked)
    ensures r.Some? ==> asked == |batches| && AnsweredTo(service, batches, asked, r.value)
  {
    var results: seq<AnalyzeResult> := [];
    for n := 0 to |batches|
      invariant AnsweredTo(service, batches, n, results)
    {
      var read := Reply(service, batches, n);
      if read.None? {
        Unanswered(service, batches, n);
        return None, n + 1;
      }
      OneMoreAnswer(service, batches, n, results);
      results := results + read.value;
    }
    assert batches[..|batches|] == batches;
    return Some(results), |batches|;
  }

  /** One result per text, in order, or none at all: that when a text cannot be sent or when
      a request goes unanswered or is answered off the contract. */
  method Analyze(enc: Encoder, lim: Limits, service: Service, texts: seq<Text>)
    returns (r: Option<seq<AnalyzeResult>>, sent: seq<seq<Text>>)
    ensures IsPrefix(Concat(sent), texts)
    ensures AllFit(Request(enc, lim), sent)
    ensures r.None? <==> !AllFitAlone(enc, lim, texts) || !AllAnswered(service, sent, |sent|)
    ensures r.Some? ==> Concat(sent) == texts && Fewest(Request(enc, lim), sent)
    ensures r.Some? ==> r.value == Replies(service, sent, |sent|) && |r.value| == |texts| && ResultsOk(r.value)
  {
    var batches, refused := Split(enc, lim, texts);
    var results, asked := Ask(service, batches);
    sent := batches[..asked];
    PrefixOf(batches, asked, texts);
    if results.None? {
      return None, sent;
    }
    assert sent == batches;
    r := if refused then None else results;
  }

  lemma {:induction false} Unanswered(service: Service, batches: seq<seq<Text>>, n: nat)
    requires n < |batches| && Reply(service, batches, n).None?
    ensures !AllAnswered(service, batches[..n + 1], n + 1)
  {
    assert Reply(service, batches[..n + 1], n).None?;
  }

  lemma {:induction false} PrefixOf(batches: seq<seq<Text>>, n: nat, texts: seq<Text>)
    requires n <= |batches| && (IsPrefix(Concat(batches), texts) || Concat(batches) == texts)
    ensures IsPrefix(Concat(batches[..n]), texts)
  {
    assert Concat(batches) + [] == Concat(batches);
    var rest :| Concat(batches) + rest == texts;
    PrefixOfWhole(batches, n);
    var head := Concat(batches[..n]);
    assert head + (Concat(batches)[|head|..] + rest) == texts;
  }
}
