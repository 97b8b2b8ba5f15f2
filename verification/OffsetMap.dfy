/**
  Offsets into the NFC form of a text, mapped back onto the text itself.

  The normaliser and the combining-class test are parameters: nothing is assumed of the
  normaliser except that it gives a non-empty text a non-empty form.
 */
module OffsetMap {
  import opened Wrappers
  import opened Texts
  import opened Seqs

  datatype Unicode = Unicode(nfc: Text -> Text, combining: CodePoint -> bool) {
    ghost predicate Sane() {
      forall s: Text :: s != [] ==> nfc(s) != []
    }
  }

  // Below it no character is ever composed onto the one before.
  const MIN_COMPOSABLE_SECOND: CodePoint := 0x300

  datatype Chunk = Chunk(start: nat, end: nat)

  // ---- chunks

  /** The end of the starter-plus-marks cluster beginning at `start`. */
  function ClusterEnd(u: Unicode, text: Text, start: nat): (end: nat)
    requires start < |text|
    ensures start < end <= |text|
    ensures end < |text| ==> !u.combining(text[end])
    decreases |text| - start
  {
    if start + 1 < |text| && u.combining(text[start + 1]) then ClusterEnd(u, text, start + 1) else start + 1
  }

  /** Cutting at `j` loses no composition with the next cluster. */
  predicate Lossless(u: Unicode, text: Text, i: nat, j: nat)
    requires i < j < |text|
  {
    var k := ClusterEnd(u, text, j);
    u.nfc(text[i..j] + text[j..k]) == u.nfc(text[i..j]) + u.nfc(text[j..k])
  }

  /** From `j` on, absorb clusters until the cut is lossless. */
  function Absorbed(u: Unicode, text: Text, i: nat, j: nat): (end: nat)
    requires i < j <= |text|
    requires j < |text| ==> !u.combining(text[j])
    ensures j <= end <= |text|
    ensures end < |text| ==> !u.combining(text[end]) && Lossless(u, text, i, end)
    decreases |text| - j
  {
    if j == |text| || Lossless(u, text, i, j) then j else Absorbed(u, text, i, ClusterEnd(u, text, j))
  }

  function ChunkEnd(u: Unicode, text: Text, i: nat): (end: nat)
    requires i < |text|
    ensures i < end <= |text|
    ensures end < |text| ==>
              !u.combining(text[end]) && (text[end] < MIN_COMPOSABLE_SECOND || Lossless(u, text, i, end))
  {
    var j := ClusterEnd(u, text, i);
    if j < |text| && text[j] >= MIN_COMPOSABLE_SECOND then Absorbed(u, text, i, j) else j
  }

  function ChunksFrom(u: Unicode, text: Text, i: nat): seq<Chunk>
    requires i <= |text|
    decreases |text| - i
  {
    if i == |text| then []
    else [Chunk(i, ChunkEnd(u, text, i))] + ChunksFrom(u, text, ChunkEnd(u, text, i))
  }

  /** A cluster is its starter and marks only. */
  lemma {:induction false} ClusterIsMarks(u: Unicode, text: Text, start: nat, q: nat)
    requires start < q < |text| && q < ClusterEnd(u, text, start)
    ensures u.combining(text[q])
    decreases |text| - start
  {
    if q > start + 1 {
      ClusterIsMarks(u, text, start + 1, q);
    }
  }

  lemma {:induction false} AbsorbedIsShortest(u: Unicode, text: Text, i: nat, j: nat, c: nat)
    requires i < j <= c < |text| && !u.combining(text[j]) && c < Absorbed(u, text, i, j) && !u.combining(text[c])
    ensures !Lossless(u, text, i, c)
    decreases |text| - j
  {
    if c > j {
      if c < ClusterEnd(u, text, j) {
        ClusterIsMarks(u, text, j, c);
      } else {
        AbsorbedIsShortest(u, text, i, ClusterEnd(u, text, j), c);
      }
    }
  }

  /** A chunk is no longer than it has to be: no cluster border inside it is a safe cut, and there
      is none at all unless the second cluster could compose with the first. */
  lemma {:induction false} ChunkIsShortest(u: Unicode, text: Text, i: nat, c: nat)
    requires i < c < |text| && c < ChunkEnd(u, text, i) && !u.combining(text[c])
    ensures !Lossless(u, text, i, c)
    ensures ClusterEnd(u, text, i) < |text| && text[ClusterEnd(u, text, i)] >= 0x300
  {
    var j := ClusterEnd(u, text, i);
    if c < j {
      ClusterIsMarks(u, text, i, c);
    } else {
      AbsorbedIsShortest(u, text, i, j, c);
    }
  }

  method ClusterEndLoop(u: Unicode, text: Text, start: nat) returns (j: nat)
    requires start < |text|
    ensures j == ClusterEnd(u, text, start)
  {
    j := start + 1;
    while j < |text| && u.combining(text[j])
      invariant start < j <= |text|
      invariant ClusterEnd(u, text, start) == ClusterEnd(u, text, j - 1)
    {
      j := j + 1;
    }
  }

  method Chunks(u: Unicode, text: Text) returns (chunks: seq<Chunk>)
    ensures chunks == ChunksFrom(u, text, 0)
  {
    chunks := [];
    var i := 0;
    while i < |text|
      invariant i <= |text|
      invariant chunks + ChunksFrom(u, text, i) == ChunksFrom(u, text, 0)
    {
      var j := ClusterEndLoop(u, text, i);
      if j < |text| && text[j] >= MIN_COMPOSABLE_SECOND {
        while j < |text|
          invariant i < j <= |text| && (j < |text| ==> !u.combining(text[j]))
          invariant Absorbed(u, text, i, j) == ChunkEnd(u, text, i)
        {
          var k := ClusterEndLoop(u, text, j);
          var head, tail := text[i..j], text[j..k];
          if u.nfc(head + tail) == u.nfc(head) + u.nfc(tail) {
            break;
          }
          j := k;
        }
      }
      Assoc(chunks, [Chunk(i, j)], ChunksFrom(u, text, j));
      chunks := chunks + [Chunk(i, j)];
      i := j;
    }
    assert chunks + [] == chunks;
  }

  // ---- runs

  datatype Run = Run(oStart: nat, oEnd: nat, nStart: nat, nEnd: nat, identity: bool)

  /** The runs tile `text` up to `oLen` and its normalised form up to `nLen`, without gaps. */
  ghost predicate Tiles(runs: seq<Run>, oLen: nat, nLen: nat)
    decreases |runs|
  {
    if runs == [] then oLen == 0 && nLen == 0
    else
      var last := runs[|runs| - 1];
      && last.oStart < last.oEnd == oLen && last.nStart < last.nEnd == nLen
      && Tiles(runs[..|runs| - 1], last.oStart, last.nStart)
  }

  /** An identity run is the same characters on both sides; any other run is one chunk that
      normalisation changed, against its normalised form. */
  ghost predicate RunOk(u: Unicode, text: Text, nfc: Text, chunks: set<Chunk>, r: Run) {
    && r.oStart <= r.oEnd <= |text| && r.nStart <= r.nEnd <= |nfc|
    && if r.identity then text[r.oStart..r.oEnd] == nfc[r.nStart..r.nEnd]
       else && Chunk(r.oStart, r.oEnd) in chunks
            && nfc[r.nStart..r.nEnd] == u.nfc(text[r.oStart..r.oEnd]) != text[r.oStart..r.oEnd]
  }

  predicate ChunksTile(chunks: seq<Chunk>, from: nat, len: nat) {
    && (chunks == [] ==> from == len)
    && (chunks != [] ==> chunks[0].start == from && chunks[|chunks| - 1].end == len)
    && (forall i :: 0 <= i < |chunks| ==> chunks[i].start < chunks[i].end <= len)
    && (forall i, j :: 0 <= i < |chunks| && j == i + 1 && j < |chunks| ==> chunks[i].end == chunks[j].start)
  }

  /** The normalised forms of the first `k` chunks, joined. */
  function Joined(u: Unicode, text: Text, chunks: seq<Chunk>, k: nat): Text
    requires ChunksTile(chunks, 0, |text|) && k <= |chunks|
  {
    if k == 0 then [] else Joined(u, text, chunks, k - 1) + u.nfc(text[chunks[k - 1].start..chunks[k - 1].end])
  }

  /** The chunks tile the text. No chunk ends before a combining mark, and where the next
      character could compose, the cut is a lossless one. */
  lemma {:induction false} ChunksCutSafely(u: Unicode, text: Text, i: nat)
    requires i <= |text|
    ensures ChunksTile(ChunksFrom(u, text, i), i, |text|)
    ensures forall c :: c in ChunksFrom(u, text, i) && c.end < |text| ==>
              !u.combining(text[c.end])
              && (text[c.end] < MIN_COMPOSABLE_SECOND || Lossless(u, text, c.start, c.end))
    decreases |text| - i
  {
    if i < |text| {
      ChunksCutSafely(u, text, ChunkEnd(u, text, i));
    }
  }

  ghost predicate RunsOk(u: Unicode, text: Text, nfc: Text, chunks: set<Chunk>, runs: seq<Run>) {
    forall i :: 0 <= i < |runs| ==> RunOk(u, text, nfc, chunks, runs[i])
  }

  lemma {:induction false} RunOkExtends(u: Unicode, text: Text, nfc: Text, more: Text, chunks: set<Chunk>, r: Run)
    requires RunOk(u, text, nfc, chunks, r)
    ensures RunOk(u, text, nfc + more, chunks, r)
  {
    assert (nfc + more)[r.nStart..r.nEnd] == nfc[r.nStart..r.nEnd];
  }

  /** One more chunk: an identity chunk extends an identity run, any other starts a new one. */
  function Extended(runs: seq<Run>, c: Chunk, nStart: nat, nEnd: nat, identity: bool): seq<Run> {
    if identity && runs != [] && runs[|runs| - 1].identity then
      var prev := runs[|runs| - 1];
      runs[..|runs| - 1] + [Run(prev.oStart, c.end, prev.nStart, nEnd, true)]
    else runs + [Run(c.start, c.end, nStart, nEnd, identity)]
  }

  lemma {:induction false} ExtendedTiles(runs: seq<Run>, c: Chunk, nStart: nat, nEnd: nat, identity: bool)
    requires Tiles(runs, c.start, nStart) && c.start < c.end && nStart < nEnd
    ensures Tiles(Extended(runs, c, nStart, nEnd, identity), c.end, nEnd)
  {
    var now := Extended(runs, c, nStart, nEnd, identity);
    if |now| == |runs| {
      assert now[..|now| - 1] == runs[..|runs| - 1];
    } else {
      assert now[..|now| - 1] == runs;
    }
  }

  lemma {:induction false} MergedOk(
    u: Unicode, text: Text, nfc: Text, piece: Text, chunks: set<Chunk>, prev: Run, c: Chunk)
    requires RunOk(u, text, nfc, chunks, prev) && prev.identity && prev.oEnd == c.start && prev.nEnd == |nfc|
    requires c.start < c.end <= |text| && piece == text[c.start..c.end]
    ensures RunOk(u, text, nfc + piece, chunks, Run(prev.oStart, c.end, prev.nStart, |nfc + piece|, true))
  {
    var all := nfc + piece;
    calc {
      text[prev.oStart..c.end];
      text[prev.oStart..c.start] + piece;
      nfc[prev.nStart..|nfc|] + piece;
      all[prev.nStart..|all|];
    }
  }

  lemma {:induction false} ExtendedOk(
    u: Unicode, text: Text, nfc: Text, piece: Text, chunks: set<Chunk>, runs: seq<Run>, c: Chunk)
    requires RunsOk(u, text, nfc, chunks, runs) && Tiles(runs, c.start, |nfc|)
    requires c in chunks && c.start < c.end <= |text| && piece == u.nfc(text[c.start..c.end])
    ensures RunsOk(u, text, nfc + piece, chunks,
                   Extended(runs, c, |nfc|, |nfc| + |piece|, piece == text[c.start..c.end]))
  {
    var now := Extended(runs, c, |nfc|, |nfc| + |piece|, piece == text[c.start..c.end]);
    forall i | 0 <= i < |now|
      ensures RunOk(u, text, nfc + piece, chunks, now[i])
    {
      if i < |now| - 1 {
        assert now[i] == runs[i];
        RunOkExtends(u, text, nfc, piece, chunks, runs[i]);
      } else if |now| == |runs| {
        MergedOk(u, text, nfc, piece, chunks, runs[i], c);
      } else {
        assert (nfc + piece)[|nfc|..|nfc| + |piece|] == piece;
      }
    }
  }

  function ChunkSet(u: Unicode, text: Text): set<Chunk> {
    set c | c in ChunksFrom(u, text, 0)
  }

  datatype Map = Map(runs: seq<Run>, nfcLen: nat, origLen: nat)

  /** A map that can be trusted: its runs tile both texts, each one as RunOk says. */
  ghost predicate MapOk(u: Unicode, text: Text, nfc: Text, m: Map) {
    && m.nfcLen == |nfc| && m.origLen == |text|
    && Tiles(m.runs, m.origLen, m.nfcLen)
    && RunsOk(u, text, nfc, ChunkSet(u, text), m.runs)
  }

  /** Where the first `k` chunks end. */
  function Reached(chunks: seq<Chunk>, k: nat): nat
    requires k <= |chunks|
  {
    if k == 0 then 0 else chunks[k - 1].end
  }

  method AddRun(runs: seq<Run>, c: Chunk, nStart: nat, nEnd: nat, identity: bool) returns (now: seq<Run>)
    ensures now == Extended(runs, c, nStart, nEnd, identity)
  {
    if identity && runs != [] && runs[|runs| - 1].identity {
      var prev := runs[|runs| - 1];
      now := runs[..|runs| - 1] + [Run(prev.oStart, c.end, prev.nStart, nEnd, true)];
    } else {
      now := runs + [Run(c.start, c.end, nStart, nEnd, identity)];
    }
  }

  /** The runs built so far: they tile the text up to `len` and all of `joined`. */
  ghost predicate Built(u: Unicode, text: Text, joined: Text, chunks: set<Chunk>, runs: seq<Run>, len: nat) {
    Tiles(runs, len, |joined|) && RunsOk(u, text, joined, chunks, runs)
  }

  lemma {:induction false} ExtendedBuilt(
    u: Unicode, text: Text, joined: Text, piece: Text, chunks: set<Chunk>, runs: seq<Run>, c: Chunk)
    requires Built(u, text, joined, chunks, runs, c.start) && piece != []
    requires c in chunks && c.start < c.end <= |text| && piece == u.nfc(text[c.start..c.end])
    ensures Built(u, text, joined + piece, chunks,
                  Extended(runs, c, |joined|, |joined| + |piece|, piece == text[c.start..c.end]), c.end)
  {
    ExtendedTiles(runs, c, |joined|, |joined| + |piece|, piece == text[c.start..c.end]);
    ExtendedOk(u, text, joined, piece, chunks, runs, c);
  }

  /** The loop body of the build: one chunk more. */
  method AddChunk(u: Unicode, text: Text, c: Chunk, ghost all: set<Chunk>, before: seq<Run>, joined: Text)
    returns (runs: seq<Run>, piece: Text)
    requires u.Sane() && c in all && c.start < c.end <= |text|
    requires Built(u, text, joined, all, before, c.start)
    ensures piece == u.nfc(text[c.start..c.end])
    ensures Built(u, text, joined + piece, all, runs, c.end)
  {
    var chunk := text[c.start..c.end];
    piece := u.nfc(chunk);
    ExtendedBuilt(u, text, joined, piece, all, before, c);
    runs := AddRun(before, c, |joined|, |joined| + |piece|, piece == chunk);
  }

  /** The runs of any tiling by chunks, and the text their forms join up to. */
  method BuildRuns(u: Unicode, text: Text, chunks: seq<Chunk>, ghost all: set<Chunk>)
    returns (runs: seq<Run>, joined: Text)
    requires u.Sane() && ChunksTile(chunks, 0, |text|) && all == (set c | c in chunks)
    ensures joined == Joined(u, text, chunks, |chunks|)
    ensures Built(u, text, joined, all, runs, |text|)
  {
    runs, joined := [], [];
    for k := 0 to |chunks|
      invariant joined == Joined(u, text, chunks, k)
      invariant Built(u, text, joined, all, runs, Reached(chunks, k))
    {
      var piece: Text;
      runs, piece := AddChunk(u, text, chunks[k], all, runs, joined);
      joined := joined + piece;
    }
  }

  /** Succeeds exactly when the chunks' forms join up to the text's own form. */
  method BuildMap(u: Unicode, text: Text, nfc: Text) returns (m: Option<Map>)
    requires u.Sane()
    ensures ChunksTile(ChunksFrom(u, text, 0), 0, |text|)
    ensures m.Some? <==> Joined(u, text, ChunksFrom(u, text, 0), |ChunksFrom(u, text, 0)|) == nfc
    ensures m.Some? ==> MapOk(u, text, nfc, m.value)
  {
    ChunksCutSafely(u, text, 0);
    var chunks := Chunks(u, text);
    var runs, joined := BuildRuns(u, text, chunks, ChunkSet(u, text));
    if joined != nfc {
      return None;
    }
    return Some(Map(runs, |nfc|, |text|));
  }

  // ---- lookups

  /** `bisect_right` over the runs' starts: how many start at or before `pos`. */
  function BisectStarts(runs: seq<Run>, pos: nat): (r: nat)
    ensures r <= |runs|
    ensures r > 0 ==> runs[r - 1].nStart <= pos
    ensures forall i :: r <= i < |runs| ==> runs[i].nStart > pos
  {
    if runs == [] then 0
    else if runs[|runs| - 1].nStart <= pos then |runs|
    else BisectStarts(runs[..|runs| - 1], pos)
  }

  /** `bisect_left` over the runs' ends: the first that ends at or after `pos`. */
  function BisectEnds(runs: seq<Run>, pos: nat): (r: nat)
    ensures r <= |runs|
    ensures r < |runs| ==> runs[r].nEnd >= pos
    ensures r > 0 ==> runs[r - 1].nEnd < pos
    decreases |runs|
  {
    if runs == [] then 0
    else if runs[|runs| - 1].nEnd < pos then |runs|
    else
      var r := BisectEnds(runs[..|runs| - 1], pos);
      r
  }

  /** The map's answer for a span's start; a map without runs has no position below its length. */
  function StartOf(m: Map, pos: nat): nat {
    var i := BisectStarts(m.runs, pos);
    if pos >= m.nfcLen || i == 0 then m.origLen
    else
      var r := m.runs[i - 1];
      if r.identity then r.oStart + (pos - r.nStart) else r.oStart
  }

  function EndOf(m: Map, pos: nat): int {
    var i := BisectEnds(m.runs, pos);
    if pos == 0 then 0
    else if pos >= m.nfcLen || i == |m.runs| then m.origLen
    else
      var r := m.runs[i];
      if r.identity then r.oStart + (pos - r.nStart) else r.oEnd
  }

  lemma {:induction false} TilesOrdered(runs: seq<Run>, oLen: nat, nLen: nat, i: nat, j: nat)
    requires Tiles(runs, oLen, nLen) && i < |runs| && j < |runs|
    ensures runs[i].oStart < runs[i].oEnd <= oLen && runs[i].nStart < runs[i].nEnd <= nLen
    ensures i < j ==> runs[i].oEnd <= runs[j].oStart && runs[i].nEnd <= runs[j].nStart
    ensures i + 1 == j ==> runs[i].oEnd == runs[j].oStart && runs[i].nEnd == runs[j].nStart
    ensures i == 0 ==> runs[i].oStart == 0 && runs[i].nStart == 0
    ensures i + 1 == |runs| ==> runs[i].oEnd == oLen && runs[i].nEnd == nLen
    decreases |runs|
  {
    var n := |runs| - 1;
    var init, last := runs[..n], runs[n];
    if n > 0 {
      if i < n {
        TilesOrdered(init, last.oStart, last.nStart, i, if j < n then j else i);
      } else if j < n {
        TilesOrdered(init, last.oStart, last.nStart, j, j);
      }
    }
  }

  /** The run a position of the normalised text falls in. */
  lemma {:induction false} StartRun(m: Map, pos: nat) returns (i: nat)
    requires Tiles(m.runs, m.origLen, m.nfcLen) && pos < m.nfcLen
    ensures i < |m.runs| && m.runs[i].nStart <= pos < m.runs[i].nEnd
    ensures StartOf(m, pos) ==
      if m.runs[i].identity then m.runs[i].oStart + (pos - m.runs[i].nStart) else m.runs[i].oStart
  {
    var k := BisectStarts(m.runs, pos);
    TilesOrdered(m.runs, m.origLen, m.nfcLen, 0, |m.runs| - 1);
    i := k - 1;
    TilesOrdered(m.runs, m.origLen, m.nfcLen, i, if k < |m.runs| then k else i);
  }

  /** The run the character before an end offset falls in. */
  lemma {:induction false} EndRun(m: Map, pos: nat) returns (j: nat)
    requires Tiles(m.runs, m.origLen, m.nfcLen) && 0 < pos <= m.nfcLen
    ensures j < |m.runs| && m.runs[j].nStart < pos <= m.runs[j].nEnd
    ensures EndOf(m, pos) ==
      if m.runs[j].identity && pos < m.nfcLen then m.runs[j].oStart + (pos - m.runs[j].nStart) else m.runs[j].oEnd
  {
    var last := |m.runs| - 1;
    TilesOrdered(m.runs, m.origLen, m.nfcLen, last, last);
    var k := BisectEnds(m.runs, pos);
    if pos >= m.nfcLen {
      j := last;
    } else {
      j := k;
      TilesOrdered(m.runs, m.origLen, m.nfcLen, if k > 0 then k - 1 else 0, k);
    }
  }

  /** Whether [a, b) of the normalised text touches the character at `q` of the text, which
      is in run `r`: the character itself in an identity run, any part of a changed chunk. */
  predicate Touches(r: Run, q: nat, a: nat, b: nat) {
    if r.identity then a <= r.nStart + (q - r.oStart) < b else r.nStart < b && a < r.nEnd
  }

  ghost predicate SameLength(r: Run) {
    r.identity ==> r.oEnd - r.oStart == r.nEnd - r.nStart
  }

  lemma {:induction false} IdentityLength(u: Unicode, text: Text, nfc: Text, m: Map, k: nat)
    requires MapOk(u, text, nfc, m) && k < |m.runs|
    ensures SameLength(m.runs[k])
  {
    var r := m.runs[k];
    assert RunOk(u, text, nfc, ChunkSet(u, text), r);
    assert |text[r.oStart..r.oEnd]| == r.oEnd - r.oStart && |nfc[r.nStart..r.nEnd]| == r.nEnd - r.nStart;
  }

  /** What the two lookups answer, in the runs they fall in. */
  ghost predicate Looked(m: Map, a: nat, b: nat, i: nat, j: nat)
    requires i < |m.runs| && j < |m.runs|
  {
    var ri, rj := m.runs[i], m.runs[j];
    && ri.nStart <= a < ri.nEnd && rj.nStart < b <= rj.nEnd && i <= j
    && ri.oStart <= StartOf(m, a) < ri.oEnd && rj.oStart < EndOf(m, b) <= rj.oEnd
    && StartOf(m, a) == (if ri.identity then ri.oStart + (a - ri.nStart) else ri.oStart)
    && EndOf(m, b) == (if rj.identity then rj.oStart + (b - rj.nStart) else rj.oEnd)
  }

  lemma {:induction false} LookUp(u: Unicode, text: Text, nfc: Text, m: Map, a: nat, b: nat) returns (i: nat, j: nat)
    requires MapOk(u, text, nfc, m) && a < b <= |nfc|
    ensures i < |m.runs| && j < |m.runs| && Looked(m, a, b, i, j)
  {
    i := StartRun(m, a);
    j := EndRun(m, b);
    IdentityLength(u, text, nfc, m, i);
    IdentityLength(u, text, nfc, m, j);
    TilesOrdered(m.runs, m.origLen, m.nfcLen, j, i);
    TilesOrdered(m.runs, m.origLen, m.nfcLen, i, j);
  }

  /** Every span of the normalised text maps to a non-empty span of the text. */
  lemma {:induction false} MappedSpanIsNonEmpty(u: Unicode, text: Text, nfc: Text, m: Map, a: nat, b: nat)
    requires MapOk(u, text, nfc, m) && a < b <= |nfc|
    ensures StartOf(m, a) < EndOf(m, b) <= |text|
  {
    var i, j := LookUp(u, text, nfc, m, a, b);
    StartBeforeEnd(m, a, b, i, j);
  }

  lemma {:induction false} StartBeforeEnd(m: Map, a: nat, b: nat, i: nat, j: nat)
    requires Tiles(m.runs, m.origLen, m.nfcLen) && a < b
    requires i < |m.runs| && j < |m.runs| && Looked(m, a, b, i, j)
    ensures StartOf(m, a) < EndOf(m, b) <= m.origLen
  {
    TilesOrdered(m.runs, m.origLen, m.nfcLen, i, j);
    TilesOrdered(m.runs, m.origLen, m.nfcLen, j, j);
  }

  lemma {:induction false} CoversExactly(m: Map, a: nat, b: nat, i: nat, j: nat, k: nat, q: nat)
    requires Tiles(m.runs, m.origLen, m.nfcLen) && a < b
    requires i < |m.runs| && j < |m.runs| && Looked(m, a, b, i, j)
    requires k < |m.runs| && m.runs[k].oStart <= q < m.runs[k].oEnd && SameLength(m.runs[k])
    ensures StartOf(m, a) <= q < EndOf(m, b) <==> Touches(m.runs[k], q, a, b)
  {
    TilesOrdered(m.runs, m.origLen, m.nfcLen, k, i);
    TilesOrdered(m.runs, m.origLen, m.nfcLen, i, k);
    TilesOrdered(m.runs, m.origLen, m.nfcLen, k, j);
    TilesOrdered(m.runs, m.origLen, m.nfcLen, j, k);
  }

  /** The lookups of an empty span: in one run, or at the border of two. */
  lemma {:induction false} EmptyLookUp(u: Unicode, text: Text, nfc: Text, m: Map, p: nat) returns (i: nat)
    requires MapOk(u, text, nfc, m) && 0 < p < |nfc|
    ensures i < |m.runs| && m.runs[i].nStart <= p < m.runs[i].nEnd
    ensures var r := m.runs[i];
            if !r.identity && r.nStart < p then StartOf(m, p) == r.oStart && EndOf(m, p) == r.oEnd
            else EndOf(m, p) <= StartOf(m, p)
  {
    i := StartRun(m, p);
    var j := EndRun(m, p);
    IdentityLength(u, text, nfc, m, j);
    TilesOrdered(m.runs, m.origLen, m.nfcLen, i, j);
    TilesOrdered(m.runs, m.origLen, m.nfcLen, j, i);
  }

  /** An empty span touches a changed chunk it is inside of, and nothing else. */
  lemma {:induction false} EmptySpanIsExact(u: Unicode, text: Text, nfc: Text, m: Map, p: nat, k: nat, q: nat)
    requires MapOk(u, text, nfc, m) && 0 < p < |nfc|
    requires k < |m.runs| && m.runs[k].oStart <= q < m.runs[k].oEnd
    ensures StartOf(m, p) <= q < EndOf(m, p) <==> Touches(m.runs[k], q, p, p)
  {
    var i := EmptyLookUp(u, text, nfc, m, p);
    TilesOrdered(m.runs, m.origLen, m.nfcLen, k, i);
    TilesOrdered(m.runs, m.origLen, m.nfcLen, i, k);
  }

  /** The mapped span covers exactly the characters the span touches: a changed chunk whole
      or not at all, an identity run character by character. */
  lemma {:induction false} MappedSpanIsExact(u: Unicode, text: Text, nfc: Text, m: Map, a: nat, b: nat, k: nat, q: nat)
    requires MapOk(u, text, nfc, m) && a <= b <= |nfc|
    requires k < |m.runs| && m.runs[k].oStart <= q < m.runs[k].oEnd
    ensures StartOf(m, a) <= q < EndOf(m, b) <==> Touches(m.runs[k], q, a, b)
  {
    if a < b {
      var i, j := LookUp(u, text, nfc, m, a, b);
      IdentityLength(u, text, nfc, m, k);
      CoversExactly(m, a, b, i, j, k, q);
    } else if 0 < a < |nfc| {
      EmptySpanIsExact(u, text, nfc, m, a, k, q);
    } else {
      TilesOrdered(m.runs, m.origLen, m.nfcLen, k, k);
    }
  }

  /** Every character of the text is in a run, so the above is about every character. */
  lemma {:induction false} EveryCharacterInARun(runs: seq<Run>, oLen: nat, nLen: nat, q: nat) returns (k: nat)
    requires Tiles(runs, oLen, nLen) && q < oLen
    ensures k < |runs| && runs[k].oStart <= q < runs[k].oEnd
    decreases |runs|
  {
    var last := runs[|runs| - 1];
    if last.oStart <= q {
      k := |runs| - 1;
    } else {
      k := EveryCharacterInARun(runs[..|runs| - 1], last.oStart, last.nStart, q);
    }
  }
}
