/**
 The hint an edit gets whose anchor does not occur in the file: where the file comes closest to it.
 Lines are compared as bags of tokens, so that whitespace does not count.
*/
module EditHint {
  import opened Texts
  import opened Runs
  import opened Generate

  // ---- tokens -----------------------------------------------------------------------------------------

  /** The length of the longest start of s that is all spaces, or has none. */
  function Span(s: string, spaces: bool): (n: nat)
    ensures n <= |s|
    ensures n < |s| ==> IsSpace(s[n]) != spaces
  {
    if s == "" || IsSpace(s[0]) != spaces then 0 else 1 + Span(s[1..], spaces)
  }

  /** The fields of a line between its runs of whitespace. */
  function Fields(s: string): seq<string>
    decreases |s|
  {
    var t := s[Span(s, true)..];
    var n := Span(t, false);
    if t == "" then [] else [t[..n]] + Fields(t[n..])
  }

  predicate NoSpaces(s: string) {
    forall c :: c in s ==> !IsSpace(c)
  }

  lemma {:induction false} SpanOf(a: string, s: string, spaces: bool)
    requires (forall c :: c in a ==> IsSpace(c) == spaces) && (s != "" ==> IsSpace(s[0]) != spaces)
    ensures Span(a + s, spaces) == |a|
    decreases |a|
  {
    if a == "" {
      assert a + s == s;
    } else {
      assert (a + s)[1..] == a[1..] + s && a[0] in a;
      SpanOf(a[1..], s, spaces);
    }
  }

  /** Text without whitespace is one field, and a space ends a field. */
  lemma {:induction false} FieldsCut(f: string, sp: char, rest: string)
    requires NoSpaces(f) && IsSpace(sp)
    ensures Fields(f) == if f == "" then [] else [f]
    ensures Fields(f + [sp] + rest) == (if f == "" then [] else [f]) + Fields(rest)
  {
    SpanOf("", f, true);
    SpanOf(f, "", false);
    assert f + "" == f && "" + f == f && f[|f|..] == "" && f[0..] == f;
    NothingInIt();
    var t := [sp] + rest;
    assert f + [sp] + rest == f + t;
    SpaceFirst(sp, rest);
    if f != "" {
      assert f[0] in f && (f + t)[0] == f[0] && "" + (f + t) == f + t && (f + t)[0..] == f + t;
      SpanOf("", f + t, true);
      SpanOf(f, t, false);
      assert (f + t)[..|f|] == f && (f + t)[|f|..] == t;
    } else {
      assert f + t == t;
    }
  }

  lemma NothingInIt()
    ensures Fields("") == []
  {
  }

  /** A leading space makes no difference. */
  lemma {:induction false} SpaceFirst(sp: char, rest: string)
    requires IsSpace(sp)
    ensures Fields([sp] + rest) == Fields(rest)
  {
    var t := [sp] + rest;
    assert t[1..] == rest && Span(t, true) == 1 + Span(rest, true);
    assert t[Span(t, true)..] == rest[Span(rest, true)..];
  }

  // ---- the similarity of two lines ------------------------------------------------------------------------

  /** The tokens the lines share, counted twice, over all their tokens. */
  function Similarity(a: seq<string>, b: seq<string>): real {
    if a == [] && b == [] then 1.0
    else if a == [] || b == [] then 0.0
    else (2 * |multiset(a) * multiset(b)|) as real / (|a| + |b|) as real
  }

  lemma SharedBounded(a: multiset<string>, b: multiset<string>)
    ensures |a * b| <= |a| && |a * b| <= |b|
    ensures 2 * |a * b| == |a| + |b| <==> a == b
  {
    assert a == a * b + (a - b) && b == a * b + (b - a);
    if |a - b| == 0 && |b - a| == 0 {
      assert a == a * b + multiset{} && b == a * b + multiset{};
    }
    if a == b {
      assert a * b == a;
    }
  }

  lemma BagSize(s: seq<string>)
    ensures |multiset(s)| == |s|
  {
  }

  lemma RatioInUnit(x: nat, y: nat)
    requires x <= y && y > 0
    ensures 0.0 <= x as real / y as real <= 1.0
    ensures x as real / y as real == 1.0 <==> x == y
  {
  }

  /** It lies between 0 and 1, and is 1 exactly for lines with the same tokens, equally often. */
  lemma SimilarityMeasures(a: seq<string>, b: seq<string>)
    ensures 0.0 <= Similarity(a, b) <= 1.0
    ensures Similarity(a, b) == 1.0 <==> multiset(a) == multiset(b)
  {
    BagSize(a);
    BagSize(b);
    SharedBounded(multiset(a), multiset(b));
    if a != [] && b != [] {
      RatioInUnit(2 * |multiset(a) * multiset(b)|, |a| + |b|);
    } else if a != [] || b != [] {
      assert |multiset(a)| != |multiset(b)|;
    }
  }

  lemma SimilarityIsSymmetric(a: seq<string>, b: seq<string>)
    ensures Similarity(a, b) == Similarity(b, a)
  {
    assert multiset(a) * multiset(b) == multiset(b) * multiset(a);
  }

  function CountIn(counts: map<string, nat>, t: string): nat {
    if t in counts then counts[t] else 0
  }

  /** counts is what bag has left of each token after taken was taken away, as far as it was there. */
  ghost predicate Remains(counts: map<string, nat>, bag: multiset<string>, taken: multiset<string>) {
    forall t :: CountIn(counts, t) == if taken[t] <= bag[t] then bag[t] - taken[t] else 0
  }

  lemma ShareOneMore(bag: multiset<string>, taken: multiset<string>, t: string)
    ensures |bag * (taken + multiset{t})| == |bag * taken| + if taken[t] < bag[t] then 1 else 0
  {
    if taken[t] < bag[t] {
      assert bag * (taken + multiset{t}) == bag * taken + multiset{t};
    } else {
      assert bag * (taken + multiset{t}) == bag * taken;
    }
  }

  lemma BagSnoc(s: seq<string>, i: nat)
    requires i < |s|
    ensures multiset(s[..i + 1]) == multiset(s[..i]) + multiset{s[i]}
  {
    assert s[..i + 1] == s[..i] + [s[i]];
  }

  /** Counts the tokens of one line, and takes those of the other away. */
  method EditLineSimilarity(a: seq<string>, b: seq<string>) returns (r: real)
    ensures r == Similarity(a, b)
  {
    if |a| == 0 && |b| == 0 {
      return 1.0;
    }
    if |a| == 0 || |b| == 0 {
      return 0.0;
    }
    var common := CountCommon(a, b);
    return (2 * common) as real / (|a| + |b|) as real;
  }

  /** How many tokens of b can be matched with tokens of a, each used once. */
  method CountCommon(a: seq<string>, b: seq<string>) returns (common: nat)
    ensures common == |multiset(a) * multiset(b)|
  {
    hide CountIn, Remains;
    var counts := CountTokens(a);
    common := 0;
    for i := 0 to |b|
      invariant Remains(counts, multiset(a), multiset(b[..i]))
      invariant common == |multiset(a) * multiset(b[..i])|
    {
      var t := b[i];
      BagSnoc(b, i);
      ShareOneMore(multiset(a), multiset(b[..i]), t);
      RemainsAfter(counts, multiset(a), multiset(b[..i]), t);
      if CountIn(counts, t) > 0 {
        common := common + 1;
        counts := counts[t := counts[t] - 1];
      }
    }
    assert b[..|b|] == b;
  }

  lemma RemainsAfter(counts: map<string, nat>, bag: multiset<string>, taken: multiset<string>, t: string)
    requires Remains(counts, bag, taken)
    ensures CountIn(counts, t) > 0 <==> taken[t] < bag[t]
    ensures CountIn(counts, t) > 0 ==>
              t in counts && counts[t] > 0 && Remains(counts[t := counts[t] - 1], bag, taken + multiset{t})
    ensures CountIn(counts, t) == 0 ==> Remains(counts, bag, taken + multiset{t})
  {
  }

  method CountTokens(a: seq<string>) returns (counts: map<string, nat>)
    ensures Remains(counts, multiset(a), multiset{})
  {
    counts := map[];
    for i := 0 to |a|
      invariant Remains(counts, multiset(a[..i]), multiset{})
    {
      BagSnoc(a, i);
      counts := counts[a[i] := CountIn(counts, a[i]) + 1];
    }
    assert a[..|a|] == a;
  }

  // ---- the closest window -------------------------------------------------------------------------------------

  /** The similarities of the first n lines of a window, added up. */
  function SumTo(file: seq<string>, wanted: seq<string>, start: nat, n: nat): real
    requires n <= |wanted| && start + n <= |file|
  {
    if n == 0 then 0.0
    else SumTo(file, wanted, start, n - 1) + Similarity(Fields(wanted[n - 1]), Fields(file[start + n - 1]))
  }

  /** The mean similarity of the lines of the window at start. */
  function Score(file: seq<string>, wanted: seq<string>, start: nat): real
    requires wanted != [] && start + |wanted| <= |file|
  {
    SumTo(file, wanted, start, |wanted|) / |wanted| as real
  }

  const THRESHOLD := 0.6

  /** start is the leftmost window of maximal score. */
  ghost predicate Nearest(file: seq<string>, wanted: seq<string>, start: nat) {
    && wanted != [] && start + |wanted| <= |file|
    && (forall s: nat :: s + |wanted| <= |file| ==> Score(file, wanted, s) <= Score(file, wanted, start))
    && forall s: nat :: s < start ==> Score(file, wanted, s) < Score(file, wanted, start)
  }

  /** Line i of the anchor has the same tokens as line i of the window at start. */
  predicate SameTokens(file: seq<string>, wanted: seq<string>, start: nat, i: nat)
    requires i < |wanted| && start + i < |file|
  {
    multiset(Fields(wanted[i])) == multiset(Fields(file[start + i]))
  }

  predicate WholeMatch(file: seq<string>, wanted: seq<string>, start: nat) {
    wanted != [] && start + |wanted| <= |file| && forall i :: 0 <= i < |wanted| ==> SameTokens(file, wanted, start, i)
  }

  /** Reports the nearest window, unless even that is too far off. */
  method NearestEditMatch(src: string, anchor: string) returns (at: Option<nat>)
    ensures at.Some? ==>
              Nearest(Lines(src), Lines(anchor), at.value) && Score(Lines(src), Lines(anchor), at.value) >= THRESHOLD
    ensures at.None? ==> forall s: nat :: Lines(anchor) != [] && s + |Lines(anchor)| <= |Lines(src)| ==>
                           Score(Lines(src), Lines(anchor), s) < THRESHOLD
    ensures forall s: nat :: WholeMatch(Lines(src), Lines(anchor), s) ==>
                               at.Some? && at.value <= s && WholeMatch(Lines(src), Lines(anchor), at.value)
  {
    var file, wanted := Lines(src), Lines(anchor);
    if |wanted| == 0 || |wanted| > |file| {
      return None;
    }
    at := BestWindow(file, wanted);
    hide Lines, Score, SameTokens;
    forall s: nat | WholeMatch(file, wanted, s)
      ensures at.Some? && at.value <= s && WholeMatch(file, wanted, at.value)
    {
      WholeMatchIsNearest(file, wanted, s);
    }
  }

  method BestWindow(file: seq<string>, wanted: seq<string>) returns (at: Option<nat>)
    requires 0 < |wanted| <= |file|
    ensures at.Some? ==> Nearest(file, wanted, at.value) && Score(file, wanted, at.value) >= THRESHOLD
    ensures at.None? ==> forall s: nat :: s + |wanted| <= |file| ==> Score(file, wanted, s) < THRESHOLD
  {
    hide Score, Similarity, Fields, SumTo, SameTokens;
    var best, bestStart: nat := -1.0, 0;
    var start: nat := 0;
    while start + |wanted| <= |file|
      invariant start <= |file| - |wanted| + 1
      invariant if start == 0 then best == -1.0 && bestStart == 0
                else bestStart < start && best == Score(file, wanted, bestStart)
      invariant forall s: nat :: s < start ==> Score(file, wanted, s) <= best
      invariant forall s: nat :: s < bestStart ==> Score(file, wanted, s) < best
    {
      var score := WindowScore(file, wanted, start);
      ScoreInUnit(file, wanted, start);
      if score > best {
        best, bestStart := score, start;
      }
      start := start + 1;
    }
    if best < THRESHOLD {
      return None;
    }
    return Some(bestStart);
  }

  lemma {:induction false} ScoreIs(file: seq<string>, wanted: seq<string>, start: nat)
    requires wanted != [] && start + |wanted| <= |file|
    ensures Score(file, wanted, start) == SumTo(file, wanted, start, |wanted|) / |wanted| as real
  {
  }

  method WindowScore(file: seq<string>, wanted: seq<string>, start: nat) returns (score: real)
    requires wanted != [] && start + |wanted| <= |file|
    ensures score == Score(file, wanted, start)
  {
    hide *;
    ScoreIs(file, wanted, start);
    NoSum(file, wanted, start);
    score := 0.0;
    for i := 0 to |wanted|
      invariant score == SumTo(file, wanted, start, i)
    {
      var one := EditLineSimilarity(Fields(wanted[i]), Fields(file[start + i]));
      SumStep(file, wanted, start, i);
      score := score + one;
    }
    score := score / |wanted| as real;
  }

  lemma SumStep(file: seq<string>, wanted: seq<string>, start: nat, n: nat)
    requires n < |wanted| && start + n < |file|
    ensures SumTo(file, wanted, start, 0) == 0.0
    ensures SumTo(file, wanted, start, n + 1) ==
            SumTo(file, wanted, start, n) + Similarity(Fields(wanted[n]), Fields(file[start + n]))
  {
    hide Similarity, Fields;
  }

  lemma LineMeasures(file: seq<string>, wanted: seq<string>, start: nat, i: nat)
    requires i < |wanted| && start + i < |file|
    ensures 0.0 <= Similarity(Fields(wanted[i]), Fields(file[start + i])) <= 1.0
    ensures Similarity(Fields(wanted[i]), Fields(file[start + i])) == 1.0 <==> SameTokens(file, wanted, start, i)
  {
    SimilarityMeasures(Fields(wanted[i]), Fields(file[start + i]));
    hide Similarity, Fields;
  }

  lemma {:induction false} SumInRange(file: seq<string>, wanted: seq<string>, start: nat, n: nat)
    requires n <= |wanted| && start + n <= |file|
    ensures 0.0 <= SumTo(file, wanted, start, n) <= n as real
    ensures SumTo(file, wanted, start, n) == n as real <==>
            forall i :: 0 <= i < n ==> SameTokens(file, wanted, start, i)
  {
    hide *;
    if n > 0 {
      SumInRange(file, wanted, start, n - 1);
      SumStep(file, wanted, start, n - 1);
      LineMeasures(file, wanted, start, n - 1);
    } else {
      NoSum(file, wanted, start);
    }
  }

  lemma {:induction false} NoSum(file: seq<string>, wanted: seq<string>, start: nat)
    requires start <= |file|
    ensures SumTo(file, wanted, start, 0) == 0.0
  {
  }

  lemma DivideBy(x: real, d: real)
    requires d > 0.0 && 0.0 <= x <= d
    ensures 0.0 <= x / d <= 1.0 && (x / d == 1.0 <==> x == d)
  {
  }

  lemma ScoreInUnit(file: seq<string>, wanted: seq<string>, start: nat)
    requires wanted != [] && start + |wanted| <= |file|
    ensures 0.0 <= Score(file, wanted, start) <= 1.0
    ensures Score(file, wanted, start) == 1.0 <==>
            forall i :: 0 <= i < |wanted| ==> SameTokens(file, wanted, start, i)
    ensures Score(file, wanted, start) == 1.0 <==> WholeMatch(file, wanted, start)
  {
    SumInRange(file, wanted, start, |wanted|);
    DivideBy(SumTo(file, wanted, start, |wanted|), |wanted| as real);
  }

  /** A window that matches token for token has the highest score there is. */
  lemma WholeMatchIsNearest(file: seq<string>, wanted: seq<string>, s: nat)
    requires WholeMatch(file, wanted, s)
    ensures Score(file, wanted, s) == 1.0
    ensures forall at: nat :: Nearest(file, wanted, at) ==> at <= s && WholeMatch(file, wanted, at)
  {
    ScoreInUnit(file, wanted, s);
    hide SameTokens, Score;
    forall at: nat | Nearest(file, wanted, at) ensures at <= s && WholeMatch(file, wanted, at) {
      ScoreInUnit(file, wanted, at);
    }
  }
}
