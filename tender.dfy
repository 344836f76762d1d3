/** The tender-analysis side of tendanal.py that is not I/O: the excerpt
    shown around each query match, and the keyword score with its verdict.
    Matching itself belongs to Python's `re` module; here matches arrive as
    spans and keyword counts as a function. */
module Tender {

  /** Characters of context kept on each side of a match. */
  const Context: nat := 100

  /** How many excerpts are displayed. */
  const MaxShown: nat := 5

  /** A match span [start, end) as `m.start()` and `m.end()` report it. */
  datatype Match = Match(start: nat, end: nat)

  /** The slice bounds of an excerpt. */
  datatype Window = Window(lo: nat, hi: nat)

  /** What `re` guarantees of every span it reports on `text`. */
  predicate SpanIn(m: Match, len: nat)
  {
    m.start <= m.end <= len
  }

  /** `max(m.start() - 100, 0)` and `min(m.end() + 100, len(text))`: the
      match widened by up to 100 characters on each side, clamped to the text. */
  function ExcerptWindow(m: Match, len: nat): (w: Window)
    requires SpanIn(m, len)
    ensures w.lo <= m.start <= m.end <= w.hi <= len
    ensures m.start - w.lo <= Context && (w.lo == 0 || m.start - w.lo == Context)
    ensures w.hi - m.end <= Context && (w.hi == len || w.hi - m.end == Context)
  {
    Window(if m.start >= Context then m.start - Context else 0,
           if m.end + Context <= len then m.end + Context else len)
  }

  /** `s.replace('\n', ' ')`. */
  function Flatten(s: string): (r: string)
    ensures |r| == |s|
    ensures forall i :: 0 <= i < |s| ==> r[i] == (if s[i] == '\n' then ' ' else s[i])
    ensures '\n' !in r
  {
    seq(|s|, i requires 0 <= i < |s| => if s[i] == '\n' then ' ' else s[i])
  }

  /** Flattening commutes with slicing. */
  lemma FlattenSlice(s: string, i: nat, j: nat)
    requires i <= j <= |s|
    ensures Flatten(s)[i..j] == Flatten(s[i..j])
  {
  }

  /** The excerpt printed for one match: the window of the whole text, with
      newlines turned into spaces, and the flattened match at its offset. */
  function Excerpt(text: string, m: Match): (e: string)
    requires SpanIn(m, |text|)
    ensures |e| <= (m.end - m.start) + 2 * Context
    ensures var w := ExcerptWindow(m, |text|);
      e == Flatten(text)[w.lo..w.hi] &&
      |e| == w.hi - w.lo &&
      e[m.start - w.lo .. m.end - w.lo] == Flatten(text[m.start..m.end])
  {
    var w := ExcerptWindow(m, |text|);
    var around := text[w.lo..w.hi];
    FlattenSlice(text, w.lo, w.hi);
    FlattenSlice(around, m.start - w.lo, m.end - w.lo);
    assert forall k :: 0 <= k < m.end - m.start ==>
      around[m.start - w.lo .. m.end - w.lo][k] == text[m.start..m.end][k];
    Flatten(around)
  }

  /** The loop over `pattern.finditer(text)`, appending one excerpt per match. */
  method CollectExcerpts(text: string, matches: seq<Match>) returns (excerpts: seq<string>)
    requires forall k :: 0 <= k < |matches| ==> SpanIn(matches[k], |text|)
    ensures |excerpts| == |matches|
    ensures forall k :: 0 <= k < |matches| ==> excerpts[k] == Excerpt(text, matches[k])
  {
    excerpts := [];
    var i := 0;
    while i < |matches|
      invariant 0 <= i <= |matches|
      invariant |excerpts| == i
      invariant forall k :: 0 <= k < i ==> excerpts[k] == Excerpt(text, matches[k])
    {
      var m := matches[i];
      var start := if m.start >= Context then m.start - Context else 0;
      var end := if m.end + Context <= |text| then m.end + Context else |text|;
      excerpts := excerpts + [Flatten(text[start..end])];
      i := i + 1;
    }
  }

  /** `excerpts[:5]`: the excerpts actually displayed. */
  function Shown(excerpts: seq<string>): (r: seq<string>)
    ensures |r| <= MaxShown
    ensures r <= excerpts
    ensures |r| == MaxShown || r == excerpts
  {
    if |excerpts| <= MaxShown then excerpts else excerpts[..MaxShown]
  }

  /** The query block: when there is at least one match, one excerpt per
      match is built and the first five are displayed. */
  method DisplayedExcerpts(text: string, matches: seq<Match>) returns (shown: seq<string>)
    requires forall k :: 0 <= k < |matches| ==> SpanIn(matches[k], |text|)
    ensures |shown| == if |matches| < MaxShown then |matches| else MaxShown
    ensures forall k :: 0 <= k < |shown| ==> shown[k] == Excerpt(text, matches[k])
  {
    shown := [];
    if |matches| > 0 {
      var excerpts := CollectExcerpts(text, matches);
      shown := Shown(excerpts);
    }
  }

  const EaseKeywords: seq<string> := ["clear", "simple", "straightforward", "standard"]
  const CostKeywords: seq<string> := ["cost", "price", "budget", "expense", "rate"]
  const RiskKeywords: seq<string> := ["penalty", "risk", "delay", "liability", "breach"]

  /** Whole-word, case-insensitive occurrence counts of a keyword in a text,
      as `len(re.findall(r'\b' + re.escape(kw) + r'\b', text, re.IGNORECASE))`
      would return them. */
  type Counter = (string, string) -> nat

  /** The sum of the counts of the keywords, the last keyword added last. */
  function Total(text: string, keywords: seq<string>, count: Counter): nat
  {
    if |keywords| == 0 then 0
    else Total(text, keywords[..|keywords| - 1], count) + count(text, keywords[|keywords| - 1])
  }

  /** Counting two keyword lists one after the other gives their sum. */
  lemma {:induction false} TotalAppend(text: string, a: seq<string>, b: seq<string>, count: Counter)
    ensures Total(text, a + b, count) == Total(text, a, count) + Total(text, b, count)
    decreases |b|
  {
    if |b| > 0 {
      var b' := b[..|b| - 1];
      assert (a + b)[..|a + b| - 1] == a + b';
      TotalAppend(text, a, b', count);
    } else {
      assert a + b == a;
    }
  }

  /** Every keyword's count is part of the total, and the total is zero
      exactly when no keyword occurs. */
  lemma {:induction false} TotalBounds(text: string, keywords: seq<string>, count: Counter)
    ensures forall k :: 0 <= k < |keywords| ==> count(text, keywords[k]) <= Total(text, keywords, count)
    ensures Total(text, keywords, count) == 0 <==>
      forall k :: 0 <= k < |keywords| ==> count(text, keywords[k]) == 0
    decreases |keywords|
  {
    if |keywords| > 0 {
      var init := keywords[..|keywords| - 1];
      TotalBounds(text, init, count);
      assert forall k :: 0 <= k < |init| ==> init[k] == keywords[k];
    }
  }

  /** `score_keywords`: the loop that adds up the per-keyword counts. */
  method ScoreKeywords(text: string, keywords: seq<string>, count: Counter) returns (score: nat)
    ensures score == Total(text, keywords, count)
  {
    score := 0;
    var i := 0;
    while i < |keywords|
      invariant 0 <= i <= |keywords|
      invariant score == Total(text, keywords[..i], count)
    {
      assert keywords[..i + 1][..i] == keywords[..i];
      score := score + count(text, keywords[i]);
      i := i + 1;
    }
    assert keywords[..i] == keywords;
  }

  datatype Verdict = Favourable | ProsAndCons | Risky

  /** The three-way verdict on the overall score. */
  function Classify(total: int): (v: Verdict)
    ensures v == Favourable <==> total > 10
    ensures v == ProsAndCons <==> 1 <= total <= 10
    ensures v == Risky <==> total <= 0
  {
    if total > 10 then Favourable
    else if total > 0 then ProsAndCons
    else Risky
  }

  function Rank(v: Verdict): nat
  {
    match v
    case Risky => 0
    case ProsAndCons => 1
    case Favourable => 2
  }

  /** A higher score never earns a worse verdict. */
  lemma ClassifyMonotone(a: int, b: int)
    requires a <= b
    ensures Rank(Classify(a)) <= Rank(Classify(b))
  {
  }

  /** The scoring summary: ease, cost and risk counts over the fixed
      keyword lists, the overall score ease + cost - risk, and its verdict. */
  method ScoreTender(text: string, count: Counter)
    returns (ease: nat, cost: nat, risk: nat, total: int, verdict: Verdict)
    ensures ease == Total(text, EaseKeywords, count)
    ensures cost == Total(text, CostKeywords, count)
    ensures risk == Total(text, RiskKeywords, count)
    ensures total == ease + cost - risk
    ensures verdict == Classify(total)
    ensures risk == 0 && (ease > 0 || cost > 0) ==> verdict != Risky
    ensures ease == 0 && cost == 0 ==> verdict == Risky
  {
    ease := ScoreKeywords(text, EaseKeywords, count);
    cost := ScoreKeywords(text, CostKeywords, count);
    risk := ScoreKeywords(text, RiskKeywords, count);
    total := ease + cost - risk;
    verdict := Classify(total);
  }
}
