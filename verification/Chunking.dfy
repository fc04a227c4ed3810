/** `chunk_text`: cut a text into overlapping windows of at most `budget` tokens, preferring sentence
    boundaries, and keep the stripped windows. */
module Chunking {

  /** Where a token lies in the text it was read from. */
  datatype Span = Span(start: nat, end: nat)

  /** `encode` gives the offsets of the tokens of a text without special tokens, `inputSize` the number
      of ids of a text with them, `specials` how many specials there are. */
  datatype Tokenizer = Tokenizer(encode: string -> seq<Span>, inputSize: string -> nat, specials: nat)

  /** Tokens are nonempty, lie in the text, and come in the order of their starts. Several tokens may
      share a start, and a part of a text may encode differently from the whole. */
  ghost predicate IsEncoding(spans: seq<Span>, n: nat) {
    && (forall k :: 0 <= k < |spans| ==> spans[k].start < spans[k].end <= n)
    && (forall i, j :: 0 <= i <= j < |spans| ==> spans[i].start <= spans[j].start)
  }

  ghost predicate IsTokenizer(tok: Tokenizer) {
    forall s: string :: IsEncoding(tok.encode(s), |s|)
  }

  ghost predicate Ascending(a: seq<nat>) {
    forall i, j :: 0 <= i < j < |a| ==> a[i] <= a[j]
  }

  /** The ends of sentences and lines, in ascending order; the end of the text is one. */
  ghost predicate IsBoundaries(bounds: seq<nat>, n: nat) {
    && (forall i, j :: 0 <= i < j < |bounds| ==> bounds[i] < bounds[j])
    && |bounds| > 0 && bounds[|bounds| - 1] == n
  }

  // ----- bisect

  /** `bisect_left`: how many elements are below `x`. */
  function BisectLeft(a: seq<nat>, x: nat): (i: nat)
    requires Ascending(a)
    ensures i <= |a|
    ensures forall k :: 0 <= k < i ==> a[k] < x
    ensures forall k :: i <= k < |a| ==> x <= a[k]
  {
    if a == [] || a[0] >= x then 0 else 1 + BisectLeft(a[1..], x)
  }

  /** `bisect_right`: how many elements are at most `x`. */
  function BisectRight(a: seq<nat>, x: nat): (i: nat)
    requires Ascending(a)
    ensures i <= |a|
    ensures forall k :: 0 <= k < i ==> a[k] <= x
    ensures forall k :: i <= k < |a| ==> x < a[k]
  {
    BisectLeft(a, x + 1)
  }

  // ----- strip

  /** `str.strip` for a given notion of white space. */
  function Strip(s: string, blank: char -> bool): (r: string)
    ensures |r| <= |s|
    ensures r != [] ==> !blank(r[0]) && !blank(r[|r| - 1])
  {
    if s == "" then ""
    else if blank(s[0]) then Strip(s[1..], blank)
    else if blank(s[|s| - 1]) then Strip(s[..|s| - 1], blank)
    else s
  }

  /** Stripping keeps a verbatim stretch of the text that holds every character that is not blank. */
  lemma {:induction false} StripKeepsInk(s: string, blank: char -> bool) returns (a: nat)
    ensures a + |Strip(s, blank)| <= |s| && Strip(s, blank) == s[a..a + |Strip(s, blank)|]
    ensures forall p :: 0 <= p < |s| && !blank(s[p]) ==> a <= p < a + |Strip(s, blank)|
    decreases |s|
  {
    if s == "" {
      a := 0;
    } else if blank(s[0]) {
      var rest := StripKeepsInk(s[1..], blank);
      a := rest + 1;
      forall p | 0 <= p < |s| && !blank(s[p]) ensures a <= p < a + |Strip(s, blank)| {
        assert s[1..][p - 1] == s[p];
      }
    } else if blank(s[|s| - 1]) {
      a := StripKeepsInk(s[..|s| - 1], blank);
      forall p | 0 <= p < |s| && !blank(s[p]) ensures a <= p < a + |Strip(s, blank)| {
        assert s[..|s| - 1][p] == s[p];
      }
    } else {
      a := 0;
    }
  }

  // ----- windows

  datatype Window = Window(start: nat, end: nat)

  datatype Job = Job(text: string, bounds: seq<nat>, tok: Tokenizer, blank: char -> bool, budget: nat, overlap: nat,
                     maxInput: nat)

  ghost predicate ValidJob(job: Job) {
    && IsTokenizer(job.tok) && IsBoundaries(job.bounds, |job.text|)
    && 0 <= job.overlap < job.budget
  }

  predicate InText(job: Job, w: Window) {
    w.start < w.end <= |job.text|
  }

  function Cut(job: Job, w: Window): string
    requires InText(job, w)
  {
    job.text[w.start..w.end]
  }

  function Starts(spans: seq<Span>): (starts: seq<nat>)
    ensures |starts| == |spans| && forall k :: 0 <= k < |spans| ==> starts[k] == spans[k].start
  {
    seq(|spans|, k requires 0 <= k < |spans| => spans[k].start)
  }

  // ----- how far a window reaches

  /** How many tokens start in a stretch. */
  ghost function TokensIn(spans: seq<Span>, from: nat, to: nat): nat {
    |set k: nat | k < |spans| && from <= spans[k].start < to|
  }

  /** The furthest end, up to `n`, before which at most a budget of tokens start, counted from `from`. */
  ghost predicate Furthest(spans: seq<Span>, from: nat, budget: nat, n: nat, limit: nat) {
    && from <= limit <= n
    && forall p: nat :: from <= p <= n ==> (p <= limit <==> TokensIn(spans, from, p) <= budget)
  }

  /** A window from `start` may end here by the tokens of the whole text. */
  ghost predicate Reaches(job: Job, start: nat, end: nat) {
    start <= end <= |job.text| && TokensIn(job.tok.encode(job.text), start, end) <= job.budget
  }

  /** A boundary in reach that adds to what is covered already. */
  ghost predicate NewBoundary(job: Job, covered: nat, start: nat, b: nat) {
    b in job.bounds && covered < b && Reaches(job, start, b)
  }

  /** Where a window from `start` is to end: at the last such boundary, or as far as it reaches if there is
      none. */
  ghost predicate IsCandidate(job: Job, covered: nat, start: nat, end: nat) {
    if exists b: nat :: NewBoundary(job, covered, start, b) then
      NewBoundary(job, covered, start, end) && forall b: nat :: NewBoundary(job, covered, start, b) ==> b <= end
    else
      Reaches(job, start, end) && forall p: nat :: Reaches(job, start, p) ==> p <= end
  }

  /** The window's own text has too many tokens up to `end`: it reaches as far as a budget of these. */
  ghost predicate Recounts(job: Job, start: nat, end: nat, next: nat)
    requires start <= end <= |job.text|
  {
    var spans := job.tok.encode(job.text[start..end]);
    |spans| > job.budget && start <= next <= end && Furthest(spans, 0, job.budget, end - start, next - start)
  }

  /** The ends that were tried: the candidate, then each as far as the one before reaches, until the window
      fits. */
  ghost predicate Tries(job: Job, start: nat, candidate: nat, end: nat, tried: seq<nat>) {
    && tried != [] && tried[0] == candidate && tried[|tried| - 1] == end
    && (forall i :: 0 <= i < |tried| ==> start <= end <= tried[i] <= |job.text|)
    && (forall i, j :: 0 <= i && j == i + 1 < |tried| ==> Recounts(job, start, tried[i], tried[j]))
    && |job.tok.encode(job.text[start..end])| <= job.budget
  }

  /** Where the window from `start` ends. */
  ghost predicate EndsAt(job: Job, covered: nat, start: nat, end: nat) {
    exists candidate, tried :: IsCandidate(job, covered, start, candidate) && Tries(job, start, candidate, end, tried)
  }

  /** Where the next window starts: `overlap` tokens before the end of this one, moved up to the
      start of a sentence if one starts in there; or at the end of this one. */
  function NextStart(job: Job, w: Window): (next: nat)
    requires InText(job, w) && Ascending(job.bounds) && IsEncoding(job.tok.encode(Cut(job, w)), w.end - w.start)
    ensures w.start < next <= w.end
  {
    var spans := job.tok.encode(Cut(job, w));
    if job.overlap > 0 && |spans| > job.overlap then
      var raw := w.start + spans[|spans| - job.overlap].start;
      var i := BisectLeft(job.bounds, raw);
      var next := if i < |job.bounds| && job.bounds[i] < w.end then job.bounds[i] else raw;
      if next > w.start then next else w.end
    else w.end
  }

  /** A window that ends where it is to end, given what is covered before it. */
  ghost predicate Chosen(job: Job, covered: nat, w: Window)
    requires IsBoundaries(job.bounds, |job.text|)
  {
    && InText(job, w)
    && IsEncoding(job.tok.encode(job.text), |job.text|)
    && IsEncoding(job.tok.encode(Cut(job, w)), w.end - w.start)
    && EndsAt(job, covered, w.start, w.end)
  }

  /** A window from `start` would add nothing to what is covered. */
  ghost predicate AddsNothing(job: Job, covered: nat, start: nat) {
    exists end: nat :: start < end <= covered && EndsAt(job, covered, start, end)
  }

  /** Where the window after `previous` starts: with its overlap, which is dropped only when it leaves no
      room for anything new. */
  ghost predicate StartsAfter(job: Job, previous: Window, start: nat)
    requires IsBoundaries(job.bounds, |job.text|)
  {
    && InText(job, previous)
    && IsEncoding(job.tok.encode(Cut(job, previous)), previous.end - previous.start)
    && (start == NextStart(job, previous)
        || (start == previous.end && AddsNothing(job, previous.end, NextStart(job, previous))))
  }

  function Covered(ws: seq<Window>): nat {
    if ws == [] then 0 else ws[|ws| - 1].end
  }

  /** Windows from the start of the text, each starting later than its predecessor but not beyond its
      end, and each ending beyond it. */
  ghost predicate Chain(ws: seq<Window>, n: nat) {
    && (forall i :: 0 <= i < |ws| ==> ws[i].start < ws[i].end <= n)
    && (ws != [] ==> ws[0].start == 0)
    && (forall i, j :: 0 <= i && j == i + 1 < |ws| ==> ws[i].start < ws[j].start <= ws[i].end < ws[j].end)
  }

  /** The choice of window `i`: its end and its start as above. */
  ghost predicate Rule(job: Job, ws: seq<Window>, i: nat)
    requires IsBoundaries(job.bounds, |job.text|) && i < |ws|
  {
    && Chosen(job, Covered(ws[..i]), ws[i])
    && (i > 0 ==> StartsAfter(job, ws[i - 1], ws[i].start))
  }

  ghost predicate Ruled(job: Job, ws: seq<Window>)
    requires IsBoundaries(job.bounds, |job.text|)
  {
    forall i: nat :: i < |ws| ==> Rule(job, ws, i)
  }

  function Piece(job: Job, w: Window): seq<string>
    requires InText(job, w)
  {
    var chunk := Strip(Cut(job, w), job.blank);
    if chunk == "" then [] else [chunk]
  }

  /** The stripped windows, without the blank ones. */
  function ChunksOf(job: Job, ws: seq<Window>): seq<string> {
    if ws == [] then []
    else
      var w := ws[|ws| - 1];
      ChunksOf(job, ws[..|ws| - 1]) + (if InText(job, w) then Piece(job, w) else [])
  }

  /** More tokens than the budget start at one place, so no cut separates them. */
  ghost predicate Crowded(spans: seq<Span>, budget: nat) {
    exists k: nat :: k + budget < |spans| && spans[k].start == spans[k + budget].start
  }

  /** Some text that the splitter may encode has more than a budget of tokens at one place. */
  ghost predicate Overcrowded(job: Job) {
    || Crowded(job.tok.encode(job.text), job.budget)
    || exists w :: InText(job, w) && Crowded(job.tok.encode(Cut(job, w)), job.budget)
  }

  /** Some chunk exceeds the model's own limit. */
  ghost predicate Oversized(job: Job) {
    exists w :: InText(job, w) && job.tok.inputSize(Strip(Cut(job, w), job.blank)) > job.maxInput
  }

  datatype Problem = BadSize | BadLimit | BadOverlap | Unsplittable | OverLimit

  datatype Outcome = Chunks(chunks: seq<string>) | Raised(problem: Problem)

  const MAX_INPUT_TOKENS := 256

  function Min(a: int, b: int): int {
    if a < b then a else b
  }

  // ----- the algorithm

  ghost function Interval(lo: nat, hi: nat): (r: set<nat>)
    requires lo <= hi
    ensures |r| == hi - lo && forall k :: k in r <==> lo <= k < hi
    decreases hi - lo
  {
    if lo == hi then {} else Interval(lo, hi - 1) + {hi - 1}
  }

  /** Counting by bisection. */
  lemma TokensCounted(spans: seq<Span>, from: nat, to: nat)
    requires Ascending(Starts(spans)) && from <= to
    ensures BisectLeft(Starts(spans), from) <= BisectLeft(Starts(spans), to)
    ensures TokensIn(spans, from, to) == BisectLeft(Starts(spans), to) - BisectLeft(Starts(spans), from)
  {
    var starts := Starts(spans);
    var lo, hi := BisectLeft(starts, from), BisectLeft(starts, to);
    assert lo == 0 || starts[lo - 1] < from;
    assert (set k: nat | k < |spans| && from <= spans[k].start < to) == Interval(lo, hi);
  }

  /** The start of the token after a budget of them is the furthest end. */
  lemma FurthestIs(spans: seq<Span>, from: nat, budget: nat, n: nat, limit: nat)
    requires IsEncoding(spans, n) && Ascending(Starts(spans)) && from <= n
    requires var last := BisectLeft(Starts(spans), from) + budget;
             limit == if last < |spans| then spans[last].start else n
    ensures Furthest(spans, from, budget, n, limit)
  {
    var starts := Starts(spans);
    var last := BisectLeft(starts, from) + budget;
    forall p: nat | from <= p <= n
      ensures p <= limit <==> TokensIn(spans, from, p) <= budget
    {
      TokensCounted(spans, from, p);
      assert last < |spans| ==> (BisectLeft(starts, p) <= last <==> p <= starts[last]);
    }
  }

  lemma NothingBefore(starts: seq<nat>)
    requires Ascending(starts)
    ensures BisectLeft(starts, 0) == 0
  {
  }

  lemma RecountIs(job: Job, start: nat, end: nat, spans: seq<Span>)
    requires start <= end <= |job.text| && spans == job.tok.encode(job.text[start..end])
    requires IsEncoding(spans, end - start) && |spans| > job.budget
    ensures Recounts(job, start, end, start + spans[job.budget].start)
  {
    NothingBefore(Starts(spans));
    FurthestIs(spans, 0, job.budget, end - start, spans[job.budget].start);
  }

  /** The re-count loop: shorten the window until it fits. */
  method Shorten(job: Job, start: nat, candidate: nat) returns (end: nat, spans: seq<Span>, ghost tried: seq<nat>)
    requires ValidJob(job) && start <= candidate <= |job.text|
    ensures start <= end <= candidate
    ensures spans == job.tok.encode(job.text[start..end]) && Tries(job, start, candidate, end, tried)
    ensures end == start < candidate ==>
              exists e :: start < e <= candidate && Crowded(job.tok.encode(job.text[start..e]), job.budget)
  {
    end := candidate;
    spans := job.tok.encode(job.text[start..end]);
    tried := [end];
    assert IsEncoding(spans, |job.text[start..end]|);
    while |spans| > job.budget
      invariant start <= end <= candidate
      invariant spans == job.tok.encode(job.text[start..end]) && IsEncoding(spans, end - start)
      invariant tried != [] && tried[0] == candidate && tried[|tried| - 1] == end
      invariant forall i :: 0 <= i < |tried| ==> end <= tried[i] <= |job.text|
      invariant forall i, j :: 0 <= i && j == i + 1 < |tried| ==> Recounts(job, start, tried[i], tried[j])
      invariant end == start < candidate ==>
                  exists e :: start < e <= candidate && Crowded(job.tok.encode(job.text[start..e]), job.budget)
      decreases end - start
    {
      if spans[job.budget].start == 0 {
        assert spans[0].start == spans[0 + job.budget].start;
        assert Crowded(job.tok.encode(job.text[start..end]), job.budget);
      }
      RecountIs(job, start, end, spans);
      end := start + spans[job.budget].start;
      tried := tried + [end];
      spans := job.tok.encode(job.text[start..end]);
      assert IsEncoding(spans, |job.text[start..end]|);
    }
  }

  lemma RuleGrows(job: Job, ws: seq<Window>, w: Window, i: nat)
    requires IsBoundaries(job.bounds, |job.text|) && i < |ws| && Rule(job, ws, i)
    ensures Rule(job, ws + [w], i)
  {
    assert (ws + [w])[..i] == ws[..i];
  }

  lemma ExtendRules(job: Job, ws: seq<Window>, w: Window)
    requires IsBoundaries(job.bounds, |job.text|) && Ruled(job, ws) && Rule(job, ws + [w], |ws|)
    ensures Ruled(job, ws + [w])
  {
    var grown := ws + [w];
    forall i: nat | i < |grown| ensures Rule(job, grown, i) {
      if i < |ws| {
        assert Rule(job, ws, i);
        RuleGrows(job, ws, w, i);
      }
    }
  }

  lemma ExtendChunks(job: Job, ws: seq<Window>, w: Window)
    requires InText(job, w)
    ensures ChunksOf(job, ws + [w]) == ChunksOf(job, ws) + Piece(job, w)
  {
    assert (ws + [w])[..|ws|] == ws;
  }

  lemma AtBoundary(job: Job, covered: nat, start: nat, limit: nat, end: nat)
    requires Furthest(job.tok.encode(job.text), start, job.budget, |job.text|, limit) && start <= covered
    requires end in job.bounds && covered < end <= limit
    requires forall b :: b in job.bounds && b <= limit ==> b <= end
    requires forall b :: b in job.bounds ==> b <= |job.text|
    ensures IsCandidate(job, covered, start, end)
  {
    assert NewBoundary(job, covered, start, end);
  }

  lemma AtLimit(job: Job, covered: nat, start: nat, limit: nat)
    requires Furthest(job.tok.encode(job.text), start, job.budget, |job.text|, limit) && start <= covered
    requires forall b :: b in job.bounds ==> b <= covered || limit < b
    requires forall b :: b in job.bounds ==> b <= |job.text|
    ensures IsCandidate(job, covered, start, limit)
  {
    assert Reaches(job, start, limit);
  }

  /** The end of the candidate window, as the code computes it. */
  method FirstEnd(job: Job, starts: seq<nat>, start: nat, covered: nat) returns (end: nat)
    requires ValidJob(job) && starts == Starts(job.tok.encode(job.text)) && start <= covered < |job.text|
    ensures IsCandidate(job, covered, start, end)
  {
    assert IsEncoding(job.tok.encode(job.text), |job.text|);
    assert Ascending(starts);
    var first := BisectLeft(starts, start);
    var last := Min(first + job.budget, |starts|);
    end := if last < |starts| then starts[last] else |job.text|;
    FurthestIs(job.tok.encode(job.text), start, job.budget, |job.text|, end);
    var i := BisectRight(job.bounds, end) - 1;
    if i >= 0 && job.bounds[i] > covered {
      AtBoundary(job, covered, start, end, job.bounds[i]);
      end := job.bounds[i];
    } else {
      AtLimit(job, covered, start, end);
    }
  }

  /** `b` is the first sentence start from `raw` on that lies in the window. */
  ghost predicate FirstSentence(bounds: seq<nat>, raw: nat, end: nat, b: nat) {
    b in bounds && raw <= b < end && forall c :: c in bounds && raw <= c < end ==> b <= c
  }

  /** What the next start means: the first sentence start in the overlap if there is one, else the start
      of the overlap's first token; and the end of the window where that would not move on, or where there
      is no overlap to repeat. */
  ghost predicate StartsOverlap(job: Job, w: Window, next: nat)
    requires InText(job, w) && IsEncoding(job.tok.encode(Cut(job, w)), w.end - w.start)
  {
    var spans := job.tok.encode(Cut(job, w));
    if job.overlap == 0 || |spans| <= job.overlap then next == w.end
    else
      var raw := w.start + spans[|spans| - job.overlap].start;
      || (exists b: nat :: FirstSentence(job.bounds, raw, w.end, b) && next == if b > w.start then b else w.end)
      || ((forall b :: b in job.bounds ==> b < raw || w.end <= b) && next == if raw > w.start then raw else w.end)
  }

  lemma NextStartIs(job: Job, w: Window)
    requires Ascending(job.bounds) && InText(job, w) && IsEncoding(job.tok.encode(Cut(job, w)), w.end - w.start)
    ensures StartsOverlap(job, w, NextStart(job, w))
  {
    var spans := job.tok.encode(Cut(job, w));
    if job.overlap > 0 && |spans| > job.overlap {
      var raw := w.start + spans[|spans| - job.overlap].start;
      var i := BisectLeft(job.bounds, raw);
      if i < |job.bounds| && job.bounds[i] < w.end {
        assert FirstSentence(job.bounds, raw, w.end, job.bounds[i]);
      }
    }
  }

  /** The start of the next window, as the code computes it from the window's own tokens. */
  method AfterWindow(job: Job, w: Window, spans: seq<Span>) returns (start: nat)
    requires ValidJob(job) && InText(job, w) && spans == job.tok.encode(Cut(job, w))
    ensures IsEncoding(spans, w.end - w.start) && start == NextStart(job, w) && StartsOverlap(job, w, start)
  {
    assert IsEncoding(spans, |Cut(job, w)|);
    NextStartIs(job, w);
    var nextStart := w.end;
    if job.overlap > 0 && |spans| > job.overlap {
      nextStart := w.start + spans[|spans| - job.overlap].start;
      var k := BisectLeft(job.bounds, nextStart);
      if k < |job.bounds| && job.bounds[k] < w.end {
        nextStart := job.bounds[k];
      }
    }
    start := if nextStart > w.start then nextStart else w.end;
  }

  /** A candidate that adds nothing comes only from too many tokens at one place. */
  lemma EmptyCandidate(job: Job, covered: nat, start: nat)
    requires ValidJob(job) && start <= covered < |job.text| && IsCandidate(job, covered, start, start)
    ensures Crowded(job.tok.encode(job.text), job.budget)
  {
    var spans := job.tok.encode(job.text);
    var starts := Starts(spans);
    assert IsEncoding(spans, |job.text|);
    var first := BisectLeft(starts, start);
    var last := first + job.budget;
    var limit := if last < |spans| then spans[last].start else |job.text|;
    FurthestIs(spans, start, job.budget, |job.text|, limit);
    assert Reaches(job, start, limit);
    assert limit == start && spans[first].start == spans[first + job.budget].start;
  }

  /** A window comes out empty only from too many tokens at one place. */
  lemma EmptyWindow(job: Job, start: nat, covered: nat, candidate: nat)
    requires ValidJob(job) && start <= covered < |job.text| && IsCandidate(job, covered, start, candidate)
    requires start < candidate ==>
               exists e :: start < e <= candidate && Crowded(job.tok.encode(job.text[start..e]), job.budget)
    ensures Overcrowded(job)
  {
    if candidate == start {
      EmptyCandidate(job, covered, start);
    } else {
      var e :| start < e <= candidate && Crowded(job.tok.encode(job.text[start..e]), job.budget);
      assert InText(job, Window(start, e)) && Cut(job, Window(start, e)) == job.text[start..e];
    }
  }

  /** Where the next window may start. */
  ghost predicate MayStart(job: Job, ws: seq<Window>, start: nat)
    requires IsBoundaries(job.bounds, |job.text|)
  {
    if ws == [] then start == 0
    else
      var previous := ws[|ws| - 1];
      previous.start < start <= previous.end && StartsAfter(job, previous, start)
  }

  /** What holds of the windows cut so far. */
  ghost predicate Partial(job: Job, ws: seq<Window>, chunks: seq<string>)
    requires IsBoundaries(job.bounds, |job.text|)
  {
    && Chain(ws, |job.text|) && Ruled(job, ws)
    && chunks == ChunksOf(job, ws) && forall c :: c in chunks ==> job.tok.inputSize(c) <= job.maxInput
  }

  /** The state between two windows. */
  ghost predicate Progress(job: Job, ws: seq<Window>, chunks: seq<string>, start: nat, covered: nat)
    requires IsBoundaries(job.bounds, |job.text|)
  {
    Partial(job, ws, chunks) && Covered(ws) == covered && MayStart(job, ws, start)
  }

  /** Dropping the overlap leaves the windows as they are; the next one starts where the last ended. */
  lemma DropOverlap(job: Job, ws: seq<Window>, chunks: seq<string>, start: nat, covered: nat)
    requires IsBoundaries(job.bounds, |job.text|) && Progress(job, ws, chunks, start, covered) && start < covered
    requires AddsNothing(job, covered, start)
    ensures Progress(job, ws, chunks, covered, covered)
  {
  }

  lemma Resume(job: Job, ws: seq<Window>, chunks: seq<string>, w: Window, start: nat)
    requires IsBoundaries(job.bounds, |job.text|) && ws != [] && ws[|ws| - 1] == w && InText(job, w)
    requires Partial(job, ws, chunks)
    requires IsEncoding(job.tok.encode(Cut(job, w)), w.end - w.start) && start == NextStart(job, w)
    ensures Progress(job, ws, chunks, start, w.end)
  {
  }

  lemma CutOne(job: Job, ws: seq<Window>, covered: nat, w: Window)
    requires IsBoundaries(job.bounds, |job.text|) && Ruled(job, ws) && Chain(ws, |job.text|)
    requires Covered(ws) == covered < w.end && MayStart(job, ws, w.start) && Chosen(job, covered, w)
    ensures Ruled(job, ws + [w]) && Chain(ws + [w], |job.text|) && Covered(ws + [w]) == w.end
  {
    assert (ws + [w])[..|ws|] == ws;
    ExtendRules(job, ws, w);
  }

  lemma Extend(job: Job, ws: seq<Window>, chunks: seq<string>, covered: nat, w: Window, after: seq<string>)
    requires IsBoundaries(job.bounds, |job.text|) && Progress(job, ws, chunks, w.start, covered)
    requires covered < w.end && Chosen(job, covered, w)
    requires after == chunks + Piece(job, w) && forall c :: c in Piece(job, w) ==> job.tok.inputSize(c) <= job.maxInput
    ensures Partial(job, ws + [w], after)
  {
    CutOne(job, ws, covered, w);
    ExtendChunks(job, ws, w);
  }

  /** Strip a window, and keep it unless it is blank; `ok` is false when the model cannot take it. */
  method Keep(job: Job, w: Window, chunks: seq<string>) returns (ok: bool, after: seq<string>)
    requires InText(job, w)
    ensures ok ==>
              && after == chunks + Piece(job, w)
              && forall c :: c in Piece(job, w) ==> job.tok.inputSize(c) <= job.maxInput
    ensures !ok ==> TooLarge(job, w)
  {
    var chunk := Strip(Cut(job, w), job.blank);
    if chunk != "" {
      if job.tok.inputSize(chunk) > job.maxInput {
        return false, chunks;
      }
      return true, chunks + [chunk];
    }
    return true, chunks;
  }

  /** The end of the window that starts at `start`: at a boundary or at the token limit, then shortened
      until it fits. */
  method ChooseEnd(job: Job, starts: seq<nat>, start: nat, covered: nat) returns (end: nat, spans: seq<Span>)
    requires ValidJob(job) && starts == Starts(job.tok.encode(job.text)) && start <= covered < |job.text|
    ensures start <= end <= |job.text| && spans == job.tok.encode(job.text[start..end])
    ensures EndsAt(job, covered, start, end)
    ensures end == start ==> Overcrowded(job)
    ensures start < end ==> Chosen(job, covered, Window(start, end))
  {
    var candidate := FirstEnd(job, starts, start, covered);
    ghost var tried;
    end, spans, tried := Shorten(job, start, candidate);
    if end == start {
      EmptyWindow(job, start, covered, candidate);
    } else {
      assert IsEncoding(job.tok.encode(Cut(job, Window(start, end))), |Cut(job, Window(start, end))|);
    }
  }

  lemma ComesOutEmpty(job: Job, ws: seq<Window>, chunks: seq<string>, start: nat, covered: nat)
    requires ValidJob(job) && Progress(job, ws, chunks, start, covered) && covered < |job.text|
    requires EndsAt(job, covered, start, start)
    ensures StopsEmpty(job, ws)
  {
  }

  lemma CannotBeTaken(job: Job, ws: seq<Window>, chunks: seq<string>, covered: nat, w: Window)
    requires ValidJob(job) && Progress(job, ws, chunks, w.start, covered) && covered < w.end
    requires Chosen(job, covered, w) && TooLarge(job, w)
    ensures StopsOverLimit(job, ws) && Oversized(job)
  {
  }

  /** The main loop. It ends because each round covers more of the text, or covers as much and starts
      later: after dropping the overlap the next window always adds something. */
  method CutWindows(job: Job) returns (r: Outcome, ghost ws: seq<Window>)
    requires ValidJob(job) && job.text != ""
    ensures Delivers(job, ws, r)
  {
    var text := job.text;
    var starts := Starts(job.tok.encode(text));
    var chunks: seq<string> := [];
    var start: nat, previousEnd: nat := 0, 0;
    ws := [];
    while start < |text|
      invariant start <= previousEnd < |text|
      invariant Progress(job, ws, chunks, start, previousEnd)
      decreases |text| - previousEnd, previousEnd - start
    {
      var end, spans := ChooseEnd(job, starts, start, previousEnd);
      if end <= start {
        ComesOutEmpty(job, ws, chunks, start, previousEnd);
        return Raised(Unsplittable), ws;
      }
      if end <= previousEnd {
        DropOverlap(job, ws, chunks, start, previousEnd);
        start := previousEnd;
        continue;
      }
      var w := Window(start, end);
      var ok, kept := Keep(job, w, chunks);
      if !ok {
        CannotBeTaken(job, ws, chunks, previousEnd, w);
        return Raised(OverLimit), ws;
      }
      Extend(job, ws, chunks, previousEnd, w, kept);
      chunks := kept;
      ws := ws + [w];
      if end == |text| {
        return Chunks(chunks), ws;
      }
      start := AfterWindow(job, w, spans);
      previousEnd := end;
      Resume(job, ws, chunks, w, start);
    }
  }

  /** What the splitter returns: the stripped windows of a chain over the whole text. */
  ghost predicate IsCut(job: Job, ws: seq<Window>, chunks: seq<string>)
    requires IsBoundaries(job.bounds, |job.text|)
  {
    Partial(job, ws, chunks) && ws != [] && Covered(ws) == |job.text|
  }

  /** The windows so far, with more to come. */
  ghost predicate Unfinished(job: Job, ws: seq<Window>)
    requires IsBoundaries(job.bounds, |job.text|)
  {
    Partial(job, ws, ChunksOf(job, ws)) && Covered(ws) < |job.text|
  }

  /** The next window is one that the model cannot take. */
  ghost predicate StopsOverLimit(job: Job, ws: seq<Window>)
    requires IsBoundaries(job.bounds, |job.text|)
  {
    && Unfinished(job, ws)
    && exists w :: TooLarge(job, w) && Covered(ws) < w.end && MayStart(job, ws, w.start) && Chosen(job, Covered(ws), w)
  }

  ghost predicate TooLarge(job: Job, w: Window) {
    InText(job, w) && exists c :: c in Piece(job, w) && job.tok.inputSize(c) > job.maxInput
  }

  /** The next window comes out empty. */
  ghost predicate StopsEmpty(job: Job, ws: seq<Window>)
    requires IsBoundaries(job.bounds, |job.text|)
  {
    Unfinished(job, ws) && exists start :: MayStart(job, ws, start) && EndsAt(job, Covered(ws), start, start)
  }

  /** What the splitter comes to: a cut, or a window that cannot be had, for a reason that is in the text. */
  ghost predicate Delivers(job: Job, ws: seq<Window>, r: Outcome)
    requires IsBoundaries(job.bounds, |job.text|)
  {
    match r
    case Chunks(chunks) => IsCut(job, ws, chunks)
    case Raised(OverLimit) => StopsOverLimit(job, ws) && Oversized(job)
    case Raised(Unsplittable) => StopsEmpty(job, ws) && Overcrowded(job)
    case _ => false
  }

  // ----- there is one outcome

  lemma FurthestOnce(spans: seq<Span>, from: nat, budget: nat, n: nat, a: nat, b: nat)
    requires Furthest(spans, from, budget, n, a) && Furthest(spans, from, budget, n, b)
    ensures a == b
  {
    assert TokensIn(spans, from, a) <= budget && TokensIn(spans, from, b) <= budget;
  }

  lemma CandidateOnce(job: Job, covered: nat, start: nat, a: nat, b: nat)
    requires IsCandidate(job, covered, start, a) && IsCandidate(job, covered, start, b)
    ensures a == b
  {
  }

  lemma {:induction false} SameTries(job: Job, start: nat, candidate: nat, a: nat, s: seq<nat>, b: nat, t: seq<nat>,
          i: nat)
    requires Tries(job, start, candidate, a, s) && Tries(job, start, candidate, b, t) && i < |s| && i < |t|
    ensures s[i] == t[i]
  {
    if i > 0 {
      SameTries(job, start, candidate, a, s, b, t, i - 1);
      assert Recounts(job, start, s[i - 1], s[i]) && Recounts(job, start, t[i - 1], t[i]);
      FurthestOnce(job.tok.encode(job.text[start..s[i - 1]]), 0, job.budget, s[i - 1] - start, s[i] - start,
                   t[i] - start);
    }
  }

  lemma TriesOnce(job: Job, start: nat, candidate: nat, a: nat, s: seq<nat>, b: nat, t: seq<nat>)
    requires Tries(job, start, candidate, a, s) && Tries(job, start, candidate, b, t) && |s| <= |t|
    ensures a == b
  {
    var n := |s| - 1;
    SameTries(job, start, candidate, a, s, b, t, n);
    assert |s| < |t| ==> Recounts(job, start, t[n], t[n + 1]);
  }

  /** From one start, with as much covered, a window ends at one place. */
  lemma EndsOnce(job: Job, covered: nat, start: nat, a: nat, b: nat)
    requires EndsAt(job, covered, start, a) && EndsAt(job, covered, start, b)
    ensures a == b
  {
    var c, s :| IsCandidate(job, covered, start, c) && Tries(job, start, c, a, s);
    var d, t :| IsCandidate(job, covered, start, d) && Tries(job, start, d, b, t);
    CandidateOnce(job, covered, start, c, d);
    if |s| <= |t| {
      TriesOnce(job, start, c, a, s, b, t);
    } else {
      TriesOnce(job, start, c, b, t, a, s);
    }
  }

  /** What comes after these windows: a window that adds something, or one that comes out empty. */
  ghost predicate Continues(job: Job, ws: seq<Window>, start: nat, end: nat)
    requires IsBoundaries(job.bounds, |job.text|)
  {
    MayStart(job, ws, start) && EndsAt(job, Covered(ws), start, end) && (end == start || Covered(ws) < end)
  }

  lemma ContinuesOnce(job: Job, ws: seq<Window>, a: nat, c: nat, b: nat, d: nat)
    requires IsBoundaries(job.bounds, |job.text|)
    requires Continues(job, ws, a, c) && Continues(job, ws, b, d)
    ensures a == b && c == d
  {
    if ws != [] && a != b {
      var next := NextStart(job, ws[|ws| - 1]);
      var e: nat :| next < e <= Covered(ws) && EndsAt(job, Covered(ws), next, e);
      EndsOnce(job, Covered(ws), next, e, if a == next then c else d);
    }
    EndsOnce(job, Covered(ws), a, c, d);
  }

  lemma RuleContinues(job: Job, ws: seq<Window>, i: nat)
    requires IsBoundaries(job.bounds, |job.text|) && Chain(ws, |job.text|) && Ruled(job, ws) && i < |ws|
    ensures Continues(job, ws[..i], ws[i].start, ws[i].end) && ws[i].start < ws[i].end
  {
    assert Rule(job, ws, i);
    if i > 0 {
      assert ws[..i][i - 1] == ws[i - 1];
    }
  }

  lemma {:induction false} SameWindows(job: Job, v: seq<Window>, w: seq<Window>, n: nat)
    requires IsBoundaries(job.bounds, |job.text|) && n <= |v| && n <= |w|
    requires Chain(v, |job.text|) && Ruled(job, v) && Chain(w, |job.text|) && Ruled(job, w)
    ensures v[..n] == w[..n]
  {
    if n > 0 {
      var i := n - 1;
      SameWindows(job, v, w, i);
      RuleContinues(job, v, i);
      RuleContinues(job, w, i);
      ContinuesOnce(job, v[..i], v[i].start, v[i].end, w[i].start, w[i].end);
      assert v[..n] == v[..i] + [v[i]] && w[..n] == w[..i] + [w[i]];
    }
  }

  lemma {:induction false} PieceIsKept(job: Job, ws: seq<Window>, i: nat)
    requires i < |ws| && InText(job, ws[i])
    ensures forall c :: c in Piece(job, ws[i]) ==> c in ChunksOf(job, ws)
  {
    if i < |ws| - 1 {
      PieceIsKept(job, ws[..|ws| - 1], i);
    }
  }

  ghost predicate GoesOnAs(job: Job, v: seq<Window>, w: seq<Window>)
    requires IsBoundaries(job.bounds, |job.text|)
  {
    |v| < |w| && v == w[..|v|] && Partial(job, w, ChunksOf(job, w))
  }

  lemma GoesOnCovering(job: Job, v: seq<Window>, w: seq<Window>)
    requires ValidJob(job) && GoesOnAs(job, v, w)
    ensures v != [] ==> Covered(v) < |job.text|
  {
    var i := |v|;
    assert i > 0 ==> w[i - 1].end < w[i].end <= |job.text|;
  }

  lemma GoesOnNonempty(job: Job, v: seq<Window>, w: seq<Window>)
    requires ValidJob(job) && GoesOnAs(job, v, w)
    ensures !StopsEmpty(job, v)
  {
    var i := |v|;
    RuleContinues(job, w, i);
    forall start | MayStart(job, v, start)
      ensures !EndsAt(job, Covered(v), start, start)
    {
      if EndsAt(job, Covered(v), start, start) {
        ContinuesOnce(job, v, start, start, w[i].start, w[i].end);
      }
    }
  }

  lemma GoesOnWithinLimit(job: Job, v: seq<Window>, w: seq<Window>)
    requires ValidJob(job) && GoesOnAs(job, v, w)
    ensures !StopsOverLimit(job, v)
  {
    var i := |v|;
    RuleContinues(job, w, i);
    PieceIsKept(job, w, i);
    forall x | TooLarge(job, x) && Covered(v) < x.end && MayStart(job, v, x.start)
      ensures !Chosen(job, Covered(v), x)
    {
      if Chosen(job, Covered(v), x) {
        ContinuesOnce(job, v, x.start, x.end, w[i].start, w[i].end);
      }
    }
  }

  /** Windows with others after them are not all. */
  lemma NotAll(job: Job, v: seq<Window>, q: Outcome, w: seq<Window>)
    requires ValidJob(job) && GoesOnAs(job, v, w)
    ensures !Delivers(job, v, q)
  {
    GoesOnCovering(job, v, w);
    GoesOnNonempty(job, v, w);
    GoesOnWithinLimit(job, v, w);
  }

  lemma EmptyOrTooLarge(job: Job, ws: seq<Window>)
    requires ValidJob(job)
    ensures StopsOverLimit(job, ws) ==> !StopsEmpty(job, ws)
  {
    if StopsOverLimit(job, ws) {
      var x :| TooLarge(job, x) && Covered(ws) < x.end && MayStart(job, ws, x.start) && Chosen(job, Covered(ws), x);
      forall start | MayStart(job, ws, start)
        ensures !EndsAt(job, Covered(ws), start, start)
      {
        if EndsAt(job, Covered(ws), start, start) {
          ContinuesOnce(job, ws, start, start, x.start, x.end);
        }
      }
    }
  }

  lemma Finished(job: Job, ws: seq<Window>, r: Outcome)
    requires ValidJob(job) && Delivers(job, ws, r)
    ensures Partial(job, ws, ChunksOf(job, ws))
    ensures r.Chunks? <==> Covered(ws) == |job.text|
    ensures r.Chunks? ==> r.chunks == ChunksOf(job, ws)
  {
  }

  lemma ByTheWindows(job: Job, ws: seq<Window>, r: Outcome)
    requires ValidJob(job) && Delivers(job, ws, r) && r.Raised?
    ensures r.problem == if StopsEmpty(job, ws) then Unsplittable else OverLimit
  {
    if r.problem == OverLimit {
      EmptyOrTooLarge(job, ws);
    }
  }

  lemma NoneMissing(job: Job, v: seq<Window>, q: Outcome, w: seq<Window>, r: Outcome)
    requires ValidJob(job) && Delivers(job, v, q) && Delivers(job, w, r)
    ensures |w| <= |v|
  {
    Finished(job, v, q);
    Finished(job, w, r);
    if |v| < |w| {
      SameWindows(job, v, w, |v|);
      assert v[..|v|] == v;
      NotAll(job, v, q, w);
    }
  }

  /** The description leaves no choice: of a text there is one sequence of windows, and one outcome. */
  lemma OneOutcome(job: Job, v: seq<Window>, q: Outcome, w: seq<Window>, r: Outcome)
    requires ValidJob(job) && Delivers(job, v, q) && Delivers(job, w, r)
    ensures v == w && q == r
  {
    NoneMissing(job, v, q, w, r);
    NoneMissing(job, w, r, v, q);
    Finished(job, v, q);
    Finished(job, w, r);
    SameWindows(job, v, w, |v|);
    assert v[..|v|] == v && w[..|w|] == w;
    if q.Raised? {
      ByTheWindows(job, v, q);
      ByTheWindows(job, w, r);
    }
  }

  // ----- the entry point

  function Budget(size: int, maxInput: int, tok: Tokenizer): int {
    Min(size, maxInput - tok.specials)
  }

  /** `chunk_text`. `bounds` stands for the matches of the boundary pattern in the text. */
  method ChunkText(text: string, size: int, overlap: int, maxInput: int, tok: Tokenizer, blank: char -> bool,
          bounds: seq<nat>)
    returns (r: Outcome, ghost ws: seq<Window>)
    requires IsTokenizer(tok) && IsBoundaries(bounds, |text|)
    ensures r == Raised(BadSize) <==> size <= 0
    ensures r == Raised(BadLimit) <==> size > 0 && !(2 < maxInput <= MAX_INPUT_TOKENS)
    ensures r == Raised(BadOverlap) <==>
              size > 0 && 2 < maxInput <= MAX_INPUT_TOKENS && !(0 <= overlap < Budget(size, maxInput, tok))
    ensures size > 0 && 2 < maxInput <= MAX_INPUT_TOKENS && 0 <= overlap < Budget(size, maxInput, tok) ==>
              var job := Job(text, bounds, tok, blank, Budget(size, maxInput, tok), overlap, maxInput);
              if Strip(text, blank) == "" || tok.encode(text) == [] then r == Chunks([]) else Delivers(job, ws, r)
  {
    ws := [];
    if size <= 0 {
      return Raised(BadSize), ws;
    }
    if !(2 < maxInput <= MAX_INPUT_TOKENS) {
      return Raised(BadLimit), ws;
    }
    var budget := Budget(size, maxInput, tok);
    if !(0 <= overlap < budget) {
      return Raised(BadOverlap), ws;
    }
    if Strip(text, blank) == "" {
      return Chunks([]), ws;
    }
    if tok.encode(text) == [] {
      return Chunks([]), ws;
    }
    var job := Job(text, bounds, tok, blank, budget, overlap, maxInput);
    r, ws := CutWindows(job);
  }

  // ----- what a chain of windows is good for

  /** What each window adds to the text covered before it, put together. */
  function Added(job: Job, ws: seq<Window>): string {
    if ws == [] then ""
    else
      var before := ws[..|ws| - 1];
      var w := ws[|ws| - 1];
      Added(job, before) + (if Covered(before) <= w.end <= |job.text| then job.text[Covered(before)..w.end] else "")
  }

  /** The cut loses nothing: without what they repeat, the windows in a row are the text. */
  lemma {:induction false} Reassembles(job: Job, ws: seq<Window>)
    requires Chain(ws, |job.text|)
    ensures Covered(ws) <= |job.text| && Added(job, ws) == job.text[..Covered(ws)]
    decreases |ws|
  {
    if ws != [] {
      var before := ws[..|ws| - 1];
      ChainPrefix(ws, |job.text|);
      Reassembles(job, before);
      TwoSlices(job.text, Covered(before), Covered(ws));
    }
  }

  lemma ChainPrefix(ws: seq<Window>, n: nat)
    requires Chain(ws, n) && ws != []
    ensures Chain(ws[..|ws| - 1], n) && Covered(ws[..|ws| - 1]) <= Covered(ws) <= n
  {
    var before := ws[..|ws| - 1];
    if before != [] {
      assert before[|before| - 1] == ws[|ws| - 2];
    }
  }

  lemma TwoSlices(s: string, i: nat, j: nat)
    requires i <= j <= |s|
    ensures s[..i] + s[i..j] == s[..j]
  {
  }

  /** A chunk is the stretch of the text at `a`, inside the window, with ink at both ends. */
  predicate VerbatimIn(job: Job, c: string, w: Window, a: nat) {
    && InText(job, w) && w.start <= a && a + |c| <= w.end && c == job.text[a..a + |c|]
    && c != "" && !job.blank(c[0]) && !job.blank(c[|c| - 1])
  }

  lemma SliceOfSlice(s: string, lo: nat, hi: nat, offset: nat, n: nat)
    requires lo <= hi <= |s| && offset + n <= hi - lo
    ensures s[lo..hi][offset..offset + n] == s[lo + offset..lo + offset + n]
  {
    var whole := s[lo..hi];
    var inner := whole[offset..offset + n];
    var direct := s[lo + offset..lo + offset + n];
    assert |inner| == |direct| == n;
    forall k | 0 <= k < n ensures inner[k] == direct[k] {
      assert inner[k] == whole[offset + k] == s[lo + offset + k];
    }
  }

  /** What a window contributes: nothing if it is blank, else a verbatim stretch with all its ink. */
  lemma PieceIsVerbatim(job: Job, w: Window) returns (a: nat)
    requires InText(job, w)
    ensures |Piece(job, w)| <= 1
    ensures forall p :: w.start <= p < w.end && !job.blank(job.text[p]) ==>
              Piece(job, w) != [] && a <= p < a + |Piece(job, w)[0]|
    ensures Piece(job, w) != [] ==> VerbatimIn(job, Piece(job, w)[0], w, a)
  {
    var offset := StripKeepsInk(Cut(job, w), job.blank);
    a := w.start + offset;
    SliceOfSlice(job.text, w.start, w.end, offset, |Strip(Cut(job, w), job.blank)|);
    InkInCut(job, w, offset);
  }

  lemma InkInCut(job: Job, w: Window, offset: nat)
    requires InText(job, w)
    requires forall q :: 0 <= q < |Cut(job, w)| && !job.blank(Cut(job, w)[q]) ==>
               offset <= q < offset + |Strip(Cut(job, w), job.blank)|
    ensures forall p :: w.start <= p < w.end && !job.blank(job.text[p]) ==>
              w.start + offset <= p < w.start + offset + |Strip(Cut(job, w), job.blank)|
  {
    forall p | w.start <= p < w.end && !job.blank(job.text[p])
      ensures w.start + offset <= p < w.start + offset + |Strip(Cut(job, w), job.blank)|
    {
      assert Cut(job, w)[p - w.start] == job.text[p];
    }
  }

  /** `c` is the stretch of the text at `a`, and position `p` lies in it. */
  predicate Around(text: string, c: string, a: nat, p: nat) {
    a <= p < a + |c| <= |text| && c == text[a..a + |c|]
  }

  /** Every character that is not white space lies in some chunk, which is a verbatim stretch of the text. */
  lemma {:induction false} InkIsKept(job: Job, ws: seq<Window>, p: nat) returns (k: nat, a: nat)
    requires Chain(ws, |job.text|) && p < Covered(ws) <= |job.text| && !job.blank(job.text[p])
    ensures k < |ChunksOf(job, ws)| && Around(job.text, ChunksOf(job, ws)[k], a, p)
    decreases |ws|
  {
    var before := ws[..|ws| - 1];
    var w := ws[|ws| - 1];
    if p < Covered(before) {
      k, a := InkIsKept(job, before, p);
    } else {
      a := PieceIsVerbatim(job, w);
      k := |ChunksOf(job, before)|;
      assert ChunksOf(job, ws)[k] == Piece(job, w)[0];
    }
  }

  /** Every chunk is a nonempty verbatim stretch of one window, and starts and ends with a character that
      is not white space. */
  lemma {:induction false} ChunksAreVerbatim(job: Job, ws: seq<Window>, k: nat) returns (i: nat, a: nat)
    requires Chain(ws, |job.text|) && k < |ChunksOf(job, ws)|
    ensures i < |ws| && VerbatimIn(job, ChunksOf(job, ws)[k], ws[i], a)
    decreases |ws|
  {
    var before := ws[..|ws| - 1];
    var w := ws[|ws| - 1];
    if k < |ChunksOf(job, before)| {
      i, a := ChunksAreVerbatim(job, before, k);
    } else {
      i := |ws| - 1;
      a := PieceIsVerbatim(job, w);
    }
  }

  /** A window that does not end a sentence had no end of a sentence in reach that it did not already
      share with the window before, or reached one and did not fit. In reach is what at most a budget of the
      text's tokens start before. */
  lemma EndsSentenceIfItCan(job: Job, ws: seq<Window>, i: nat, b: nat)
    requires IsBoundaries(job.bounds, |job.text|) && Ruled(job, ws) && i < |ws| && ws[i].end !in job.bounds
    requires b in job.bounds && Covered(ws[..i]) < b && ws[i].start <= b <= |job.text|
    requires TokensIn(job.tok.encode(job.text), ws[i].start, b) <= job.budget
    ensures exists e :: b <= e <= |job.text| && e in job.bounds &&
              |job.tok.encode(job.text[ws[i].start..e])| > job.budget
  {
    assert Rule(job, ws, i);
    var e, tried :| IsCandidate(job, Covered(ws[..i]), ws[i].start, e) && Tries(job, ws[i].start, e, ws[i].end, tried);
    assert NewBoundary(job, Covered(ws[..i]), ws[i].start, b);
    assert |tried| > 1 && Recounts(job, ws[i].start, tried[0], tried[1]);
  }

  /** A window without a new end of a sentence in reach goes as far as a budget of the text's tokens, or as
      far as its own tokens let it. */
  lemma ReachesAsFarAsItCan(job: Job, ws: seq<Window>, i: nat, p: nat)
    requires IsBoundaries(job.bounds, |job.text|) && Ruled(job, ws) && i < |ws| && ws[i].end < p <= |job.text|
    requires TokensIn(job.tok.encode(job.text), ws[i].start, p) <= job.budget
    ensures InText(job, ws[i])
    ensures ws[i].end in job.bounds || exists e ::
              ws[i].end < e <= |job.text| && |job.tok.encode(job.text[ws[i].start..e])| > job.budget
  {
    assert Rule(job, ws, i);
    var e, tried :| IsCandidate(job, Covered(ws[..i]), ws[i].start, e) && Tries(job, ws[i].start, e, ws[i].end, tried);
    assert Reaches(job, ws[i].start, p);
    if |tried| > 1 {
      assert Recounts(job, ws[i].start, tried[0], tried[1]);
    }
  }

  /** Every window is within the token budget. */
  lemma WithinBudget(job: Job, ws: seq<Window>, i: nat)
    requires IsBoundaries(job.bounds, |job.text|) && Ruled(job, ws) && i < |ws|
    ensures InText(job, ws[i]) && |job.tok.encode(Cut(job, ws[i]))| <= job.budget
  {
    assert Rule(job, ws, i);
  }

  // ----- overlap

  /** How many tokens of a window start at or after the place where the next window starts. */
  function Repeated(job: Job, w: Window, next: nat): nat
    requires InText(job, w) && IsEncoding(job.tok.encode(Cut(job, w)), w.end - w.start) && w.start <= next
  {
    var spans := job.tok.encode(Cut(job, w));
    |spans| - BisectLeft(Starts(spans), next - w.start)
  }

  /** The place where the overlap begins lies among tokens that share one start, and no sentence starts
      later in the overlap. */
  ghost predicate TearsTokens(job: Job, w: Window)
    requires InText(job, w)
  {
    var spans := job.tok.encode(Cut(job, w));
    var k := |spans| - job.overlap;
    && job.overlap > 0 && k > 0
    && 0 < spans[k].start == spans[k - 1].start
    && var raw := w.start + spans[k].start;
       raw in job.bounds || forall b :: b in job.bounds ==> b <= raw || w.end <= b
  }

  lemma BisectAtLeast(a: seq<nat>, x: nat, k: nat)
    requires Ascending(a) && 0 < k <= |a|
    ensures BisectLeft(a, x) >= k <==> a[k - 1] < x
  {
  }

  /** At most `overlap` tokens of a window start where its overlap starts or later if and only if the
      overlap does not begin among tokens with one start. */
  lemma OverlapIsBounded(job: Job, w: Window)
    requires ValidJob(job) && InText(job, w) && IsEncoding(job.tok.encode(Cut(job, w)), w.end - w.start)
    ensures Repeated(job, w, NextStart(job, w)) <= job.overlap <==> !TearsTokens(job, w)
  {
    var spans := job.tok.encode(Cut(job, w));
    var k := |spans| - job.overlap;
    NextStartIs(job, w);
    if job.overlap > 0 && k > 0 {
      RepeatedAtMost(job, w, NextStart(job, w), k);
      TornAt(job, w, NextStart(job, w));
    } else {
      NothingRepeated(job, w);
    }
  }

  /** At most the tokens from `k` on are repeated when the token before starts before the next window. */
  lemma RepeatedAtMost(job: Job, w: Window, next: nat, k: nat)
    requires InText(job, w) && IsEncoding(job.tok.encode(Cut(job, w)), w.end - w.start) && w.start <= next
    requires 0 < k < |job.tok.encode(Cut(job, w))|
    ensures var spans := job.tok.encode(Cut(job, w));
            && (Repeated(job, w, next) <= |spans| - k <==> spans[k - 1].start < next - w.start)
            && spans[k - 1].start <= spans[k].start < w.end - w.start
  {
    var spans := job.tok.encode(Cut(job, w));
    BisectAtLeast(Starts(spans), next - w.start, k);
  }

  /** Tokens are torn when the next window starts at a token that shares its start with the one before. */
  lemma TornAt(job: Job, w: Window, next: nat)
    requires InText(job, w) && IsEncoding(job.tok.encode(Cut(job, w)), w.end - w.start)
    requires StartsOverlap(job, w, next) && 0 < job.overlap < |job.tok.encode(Cut(job, w))|
    ensures var spans := job.tok.encode(Cut(job, w));
            var k := |spans| - job.overlap;
            && w.start + spans[k].start <= next <= w.end
            && (TearsTokens(job, w) <==> spans[k].start == spans[k - 1].start && next == w.start + spans[k].start)
  {
  }

  /** Along a cut at most `overlap` tokens of a window are repeated in the next one if and only if the
      overlap does not begin among tokens with one start, or was dropped. */
  lemma CutOverlapIsBounded(job: Job, ws: seq<Window>, i: nat)
    requires ValidJob(job) && Chain(ws, |job.text|) && Ruled(job, ws) && i + 1 < |ws| && InText(job, ws[i])
    ensures ws[i].start <= ws[i + 1].start && IsEncoding(job.tok.encode(Cut(job, ws[i])), ws[i].end - ws[i].start)
    ensures Repeated(job, ws[i], ws[i + 1].start) <= job.overlap
            <==> !TearsTokens(job, ws[i]) || ws[i + 1].start == ws[i].end
  {
    assert ws[i].start < ws[i + 1].start;
    assert Rule(job, ws, i + 1);
    OverlapIsBounded(job, ws[i]);
    NothingRepeated(job, ws[i]);
  }

  /** In particular it holds along a cut when no two tokens of a window share a start. */
  lemma DistinctStartsBoundOverlap(job: Job, ws: seq<Window>, i: nat)
    requires ValidJob(job) && Chain(ws, |job.text|) && Ruled(job, ws) && i + 1 < |ws| && InText(job, ws[i])
    requires forall j, k :: 0 <= j < k < |job.tok.encode(Cut(job, ws[i]))| ==>
               job.tok.encode(Cut(job, ws[i]))[j].start < job.tok.encode(Cut(job, ws[i]))[k].start
    ensures ws[i].start <= ws[i + 1].start && IsEncoding(job.tok.encode(Cut(job, ws[i])), ws[i].end - ws[i].start)
    ensures Repeated(job, ws[i], ws[i + 1].start) <= job.overlap
  {
    CutOverlapIsBounded(job, ws, i);
  }

  lemma AllBelow(a: seq<nat>, x: nat)
    requires Ascending(a) && forall k :: 0 <= k < |a| ==> a[k] < x
    ensures BisectLeft(a, x) == |a|
  {
  }

  lemma NothingRepeated(job: Job, w: Window)
    requires InText(job, w) && IsEncoding(job.tok.encode(Cut(job, w)), w.end - w.start)
    ensures Repeated(job, w, w.end) == 0
  {
    var spans := job.tok.encode(Cut(job, w));
    AllBelow(Starts(spans), w.end - w.start);
  }

  // A tokenizer that reads two tokens from every character, as happens with Hangul syllables.
  function TwoPerChar(s: string): seq<Span> {
    seq(2 * |s|, k requires 0 <= k < 2 * |s| => Span(k / 2, k / 2 + 1))
  }

  const PAIRS := Job("abc", [3], Tokenizer(s => TwoPerChar(s), s => 2 * |s|, 0), c => c == ' ', 4, 1, 256)

  lemma PairsIsValid()
    ensures ValidJob(PAIRS)
  {
    forall s: string ensures IsEncoding(PAIRS.tok.encode(s), |s|) {
      assert PAIRS.tok.encode(s) == TwoPerChar(s);
    }
  }

  lemma PairsEncodings()
    ensures PAIRS.tok.encode("abc") == [Span(0, 1), Span(0, 1), Span(1, 2), Span(1, 2), Span(2, 3), Span(2, 3)]
    ensures PAIRS.tok.encode("ab") == [Span(0, 1), Span(0, 1), Span(1, 2), Span(1, 2)]
    ensures PAIRS.tok.encode("bc") == [Span(0, 1), Span(0, 1), Span(1, 2), Span(1, 2)]
  {
    assert PAIRS.tok.encode("ab") == TwoPerChar("ab");
    assert PAIRS.tok.encode("bc") == TwoPerChar("bc");
    assert PAIRS.tok.encode("abc") == TwoPerChar("abc");
  }

  /** A window that reaches the limit of its tokens and fits ends there. */
  lemma FitsAtLimit(job: Job, covered: nat, w: Window)
    requires ValidJob(job) && InText(job, w) && w.start <= covered
    requires Furthest(job.tok.encode(job.text), w.start, job.budget, |job.text|, w.end)
    requires |job.tok.encode(Cut(job, w))| <= job.budget
    requires w.end == |job.text| || forall b :: b in job.bounds ==> b <= covered || w.end < b
    requires w.end == |job.text| ==> covered < w.end
    ensures Chosen(job, covered, w)
  {
    assert IsEncoding(job.tok.encode(job.text), |job.text|);
    assert IsEncoding(job.tok.encode(Cut(job, w)), |Cut(job, w)|);
    if w.end == |job.text| {
      AtBoundary(job, covered, w.start, w.end, w.end);
    } else {
      AtLimit(job, covered, w.start, w.end);
    }
    assert Tries(job, w.start, w.end, w.end, [w.end]);
  }

  /** The first window is "ab", and the next one starts with its second character. */
  lemma PairsFirst()
    ensures ValidJob(PAIRS) && Chosen(PAIRS, 0, Window(0, 2))
    ensures StartsAfter(PAIRS, Window(0, 2), 1) && Repeated(PAIRS, Window(0, 2), 1) == 2
  {
    PairsIsValid();
    PairsEncodings();
    var w := Window(0, 2);
    assert Cut(PAIRS, w) == "ab";
    NothingBefore(Starts(PAIRS.tok.encode("abc")));
    FurthestIs(PAIRS.tok.encode("abc"), 0, 4, 3, 2);
    FitsAtLimit(PAIRS, 0, w);
    assert NextStart(PAIRS, w) == 1;
    var inner := Starts(PAIRS.tok.encode("ab"));
    assert inner[1] == 0 && inner[2] == 1;
    assert BisectLeft(inner, 1) == 2;
  }

  /** The second window is "bc". */
  lemma PairsSecond()
    ensures ValidJob(PAIRS) && Chosen(PAIRS, 2, Window(1, 3))
  {
    PairsIsValid();
    PairsEncodings();
    assert Cut(PAIRS, Window(1, 3)) == "bc";
    var starts := Starts(PAIRS.tok.encode("abc"));
    assert starts[1] == 0 && starts[2] == 1;
    assert BisectLeft(starts, 1) == 2;
    FurthestIs(PAIRS.tok.encode("abc"), 1, 4, 3, 3);
    FitsAtLimit(PAIRS, 2, Window(1, 3));
  }

  /** The overlap can exceed its size in a cut that the splitter delivers: one token of "ab" may be
      repeated in "bc", and two are. */
  lemma OverlapCanExceed()
    ensures var ws := [Window(0, 2), Window(1, 3)];
            && ValidJob(PAIRS) && IsCut(PAIRS, ws, ["ab", "bc"])
            && Repeated(PAIRS, ws[0], ws[1].start) == 2 > PAIRS.overlap
  {
    PairsFirst();
    PairsSecond();
    PairsChunks();
    TwoWindows(PAIRS, Window(0, 2), Window(1, 3));
  }

  /** A window and the one after it, the last, make a cut. */
  lemma TwoWindows(job: Job, v: Window, w: Window)
    requires ValidJob(job) && Chosen(job, 0, v) && Chosen(job, v.end, w)
    requires v.start == 0 && v.start < w.start <= v.end < w.end == |job.text|
    requires StartsAfter(job, v, w.start)
    requires forall c :: c in ChunksOf(job, [v, w]) ==> job.tok.inputSize(c) <= job.maxInput
    ensures IsCut(job, [v, w], ChunksOf(job, [v, w]))
  {
    FirstRule(job, [v, w]);
    SecondRule(job, [v, w]);
    TwoRules(job, [v, w]);
    TwoChained(v, w, |job.text|);
  }

  lemma TwoRules(job: Job, ws: seq<Window>)
    requires IsBoundaries(job.bounds, |job.text|) && |ws| == 2 && Rule(job, ws, 0) && Rule(job, ws, 1)
    ensures Ruled(job, ws)
  {
    forall i: nat | i < |ws| ensures Rule(job, ws, i) {
      assert i == 0 || i == 1;
    }
  }

  lemma TwoChained(v: Window, w: Window, n: nat)
    requires v.start == 0 && v.start < w.start <= v.end < w.end == n
    ensures Chain([v, w], n) && Covered([v, w]) == n
  {
  }

  lemma FirstRule(job: Job, ws: seq<Window>)
    requires IsBoundaries(job.bounds, |job.text|) && ws != [] && Chosen(job, 0, ws[0])
    ensures Rule(job, ws, 0)
  {
    assert Covered(ws[..0]) == 0;
  }

  lemma SecondRule(job: Job, ws: seq<Window>)
    requires IsBoundaries(job.bounds, |job.text|) && |ws| == 2
    requires Chosen(job, ws[0].end, ws[1]) && StartsAfter(job, ws[0], ws[1].start)
    ensures Rule(job, ws, 1)
  {
    assert Covered(ws[..1]) == ws[0].end;
  }

  lemma PairsChunks()
    ensures var chunks := ChunksOf(PAIRS, [Window(0, 2), Window(1, 3)]);
            chunks == ["ab", "bc"] && forall c :: c in chunks ==> PAIRS.tok.inputSize(c) <= PAIRS.maxInput
  {
    var ws := [Window(0, 2), Window(1, 3)];
    assert ws[..1] == [Window(0, 2)] && [Window(0, 2)][..0] == [];
    assert Cut(PAIRS, Window(0, 2)) == "ab" && Cut(PAIRS, Window(1, 3)) == "bc";
    assert Strip("ab", PAIRS.blank) == "ab" && Strip("bc", PAIRS.blank) == "bc";
    assert ChunksOf(PAIRS, [Window(0, 2)]) == ["ab"];
  }
}
