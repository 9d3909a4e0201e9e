/**
 Best-of-N selection: by structure alone, and by a tournament of double-blind comparisons.
*/
module BestOf {
  import opened Generate
  import opened Gates
  import Runs
  import opened Texts
  import Sweep

  datatype Attempt = Attempt(index: nat, outcome: RunOutcome, patched: bool)

  /** What one call of the selector gives; pick is trimmed and in upper case, and may be anything. */
  datatype Pick = Pick(pick: string, failed: bool)

  /** The n-th call of the selector, with one patch shown as A and one as B. */
  type Selector = (nat, string, string) -> Pick

  datatype Verdict = Verdict(pick1: string, pick2: string, consistent: bool, winner: nat)

  // ---- by structure -----------------------------------------------------------------------------------------

  function Rank(a: Attempt): nat {
    if !a.patched then 3 else match a.outcome case Answered => 0 case HitCap => 1 case _ => 2
  }

  function TrialRank(t: Sweep.Trial): nat {
    if t.err then 4 else if t.noAttempt then 3 else match t.outcome case Answered => 0 case HitCap => 1 case _ => 2
  }

  /** a goes before b: a better rank, or the same and earlier. */
  predicate Before(a: Attempt, b: Attempt) {
    Rank(a) < Rank(b) || (Rank(a) == Rank(b) && a.index < b.index)
  }

  /** best is the first attempt that none goes before. */
  predicate IsFirstBest(xs: seq<Attempt>, best: nat) {
    && best < |xs| && (forall i :: 0 <= i < |xs| ==> !Before(xs[i], xs[best]))
    && forall i :: 0 <= i < best ==> Before(xs[best], xs[i])
  }

  method SelectByStructure(xs: seq<Attempt>) returns (best: int)
    ensures xs == [] ==> best == -1
    ensures xs != [] ==> 0 <= best && IsFirstBest(xs, best)
  {
    best := -1;
    for i := 0 to |xs|
      invariant if i == 0 then best == -1 else 0 <= best < i && IsFirstBest(xs[..i], best)
    {
      if best == -1 {
        best := i;
      } else if Rank(xs[i]) < Rank(xs[best]) || (Rank(xs[i]) == Rank(xs[best]) && xs[i].index < xs[best].index) {
        best := i;
      }
    }
    assert xs[..|xs|] == xs;
  }

  /** An attempt without a patch comes last; an Answered one goes before a capped one, and that before all others. */
  lemma StructureOrder(a: Attempt, b: Attempt)
    ensures a.patched && !b.patched ==> Before(a, b)
    ensures a.patched && a.outcome.Answered? && !b.outcome.Answered? ==> Before(a, b)
    ensures a.patched && a.outcome.HitCap? && !b.outcome.Answered? && !b.outcome.HitCap? ==> Before(a, b)
    ensures a.patched == b.patched && a.outcome == b.outcome ==> (Before(a, b) <==> a.index < b.index)
    ensures !a.patched && !b.patched ==> (Before(a, b) <==> a.index < b.index)
    ensures a.patched && b.patched && !a.outcome.Answered? && !b.outcome.Answered? && !a.outcome.HitCap?
            && !b.outcome.HitCap? ==>
              (Before(a, b) <==> a.index < b.index)
  {
  }

  /** The same, for the trials of an evaluation. */
  predicate IsFirstBestTrial(ts: seq<Sweep.Trial>, best: nat) {
    && best < |ts| && (forall i :: 0 <= i < |ts| ==> !TrialBefore(ts[i], ts[best]))
    && forall i :: 0 <= i < best ==> TrialBefore(ts[best], ts[i])
  }

  predicate TrialBefore(t: Sweep.Trial, u: Sweep.Trial) {
    TrialRank(t) < TrialRank(u) || (TrialRank(t) == TrialRank(u) && t.index < u.index)
  }

  method SelectBest(ts: seq<Sweep.Trial>) returns (best: int)
    ensures ts == [] ==> best == -1
    ensures ts != [] ==> 0 <= best && IsFirstBestTrial(ts, best)
  {
    best := -1;
    for i := 0 to |ts|
      invariant if i == 0 then best == -1 else 0 <= best < i && IsFirstBestTrial(ts[..i], best)
    {
      if best == -1 {
        best := i;
      } else if TrialRank(ts[i]) < TrialRank(ts[best])
        || (TrialRank(ts[i]) == TrialRank(ts[best]) && ts[i].index < ts[best].index) {
        best := i;
      }
    }
    assert ts[..|ts|] == ts;
  }

  function AttemptOf(t: Sweep.Trial): Attempt {
    Attempt.Attempt(t.index, t.outcome, !t.noAttempt)
  }

  /** On trials without an infrastructure error the two selections are the same. */
  lemma SelectionsAgree(ts: seq<Sweep.Trial>, xs: seq<Attempt>, best: nat)
    requires |xs| == |ts| && forall i :: 0 <= i < |ts| ==> !ts[i].err && xs[i] == AttemptOf(ts[i])
    ensures IsFirstBestTrial(ts, best) <==> IsFirstBest(xs, best)
  {
    forall i, j | 0 <= i < |ts| && 0 <= j < |ts| ensures TrialBefore(ts[i], ts[j]) <==> Before(xs[i], xs[j]) {
      assert TrialRank(ts[i]) == Rank(xs[i]) && TrialRank(ts[j]) == Rank(xs[j]);
    }
    hide TrialBefore, Before;
  }

  // ---- one comparison -----------------------------------------------------------------------------------------

  /** What the selector model answers: nothing, JSON with a pick, or prose. */
  datatype Reply = NoReply | Parsed(pick: string) | Prose(text: string)

  /** The selector that the tool ships asks a model, and takes nothing but the two labels for an answer. */
  type Model = (nat, string, string) -> Reply

  function UpperChar(c: char): char {
    if 'a' <= c <= 'z' then c - 'a' + 'A' else c
  }

  function ToUpper(s: string): string {
    seq(|s|, i requires 0 <= i < |s| => UpperChar(s[i]))
  }

  predicate IsLabel(s: string) {
    s == "A" || s == "B"
  }

  /** The prose starts with the letter, or holds the JSON member that picks it. */
  ghost predicate Names(text: string, letter: string) {
    || (|letter| <= |text| && Spells(text[..|letter|], letter))
    || exists k: nat :: SpelledAt(text, "\"PICK\":\"" + letter + "\"", k)
  }

  /** Replies are kept trimmed.  Prose that names both labels is read as the first. */
  function Compare(r: Reply): (p: Pick)
    ensures !p.failed ==> IsLabel(p.pick)
    ensures r.NoReply? ==> p.failed
    ensures r.Parsed? && (r.pick == "A" || r.pick == "a") ==> p == Pick("A", false)
    ensures r.Parsed? && (r.pick == "B" || r.pick == "b") ==> p == Pick("B", false)
    ensures r.Parsed? && r.pick !in ["A", "a", "B", "b"] ==> p.failed
    ensures r.Prose? && Names(r.text, "A") ==> p == Pick("A", false)
    ensures r.Prose? && !Names(r.text, "A") && Names(r.text, "B") ==> p == Pick("B", false)
    ensures r.Prose? && !Names(r.text, "A") && !Names(r.text, "B") ==> p.failed
  {
    hide Runs.Contains, Runs.HasPrefix, Names;
    CompareMeans(r);
    match r
    case NoReply => Pick("", true)
    case Parsed(pick) => if IsLabel(ToUpper(pick)) then Pick(ToUpper(pick), false) else Pick("", true)
    case Prose(text) =>
      var upper := ToUpper(text);
      if Runs.Contains(upper, "\"PICK\":\"A\"") || Runs.HasPrefix(upper, "A") then Pick("A", false)
      else if Runs.Contains(upper, "\"PICK\":\"B\"") || Runs.HasPrefix(upper, "B") then Pick("B", false)
      else Pick("", true)
  }

  /** Reading in capitals is reading in either case. */
  lemma UpperSpells(s: string, t: string)
    requires forall i :: 0 <= i < |t| ==> !('a' <= t[i] <= 'z')
    ensures ToUpper(s) == t <==> Spells(s, t)
  {
    if ToUpper(s) == t {
      assert forall i :: 0 <= i < |s| ==> UpperChar(s[i]) == t[i];
    }
    if Spells(s, t) {
      assert forall i :: 0 <= i < |s| ==> UpperChar(s[i]) == t[i];
    }
  }

  lemma {:induction false} NamesIff(text: string, letter: string)
    requires IsLabel(letter)
    ensures Names(text, letter) <==>
            Runs.Contains(ToUpper(text), "\"PICK\":\"" + letter + "\"") || Runs.HasPrefix(ToUpper(text), letter)
  {
    var upper, sub := ToUpper(text), "\"PICK\":\"" + letter + "\"";
    Runs.ContainsIff(upper, sub);
    forall k: nat
      ensures OccursAt(upper, sub, k) <==> SpelledAt(text, sub, k)
    {
      if k + |sub| <= |text| {
        assert upper[k..k + |sub|] == ToUpper(text[k..k + |sub|]);
        UpperSpells(text[k..k + |sub|], sub);
      }
    }
    if |letter| <= |text| {
      assert upper[..|letter|] == ToUpper(text[..|letter|]);
      UpperSpells(text[..|letter|], letter);
    }
  }

  lemma CompareMeans(r: Reply)
    ensures r.Prose? ==>
              && (Names(r.text, "A") <==>
                  Runs.Contains(ToUpper(r.text), "\"PICK\":\"A\"") || Runs.HasPrefix(ToUpper(r.text), "A"))
              && (Names(r.text, "B") <==>
                  Runs.Contains(ToUpper(r.text), "\"PICK\":\"B\"") || Runs.HasPrefix(ToUpper(r.text), "B"))
    ensures r.Parsed? ==>
              && (ToUpper(r.pick) == "A" <==> r.pick == "A" || r.pick == "a")
              && (ToUpper(r.pick) == "B" <==> r.pick == "B" || r.pick == "b")
  {
    if r.Prose? {
      NamesIff(r.text, "A");
      NamesIff(r.text, "B");
      assert "\"PICK\":\"" + "A" + "\"" == "\"PICK\":\"A\"" && "\"PICK\":\"" + "B" + "\"" == "\"PICK\":\"B\"";
    }
    if r.Parsed? {
      UpperSpells(r.pick, "A");
      UpperSpells(r.pick, "B");
      SpellsLetter(r.pick);
    }
  }

  lemma SpellsLetter(s: string)
    ensures Spells(s, "A") <==> s == "A" || s == "a"
    ensures Spells(s, "B") <==> s == "B" || s == "b"
  {
    assert |s| == 1 ==> s == [s[0]];
  }

  function Shipped(model: Model): Selector {
    (n: nat, a: string, b: string) => Compare(model(n, a, b))
  }

  /** Both orders were judged, and the judgments name different labels. */
  predicate Consistent(p1: Pick, p2: Pick) {
    !p1.failed && !p2.failed && p1.pick != p2.pick
  }

  /** Who wins when p1 is the pick with a shown as A, and p2 the one with b shown as A. */
  function WinnerOf(p1: Pick, p2: Pick, a: nat, b: nat): Option<nat> {
    if Consistent(p1, p2) then Some(if p1.pick == "A" then a else b) else None
  }

  /** The winner of a comparison of a and b that starts with the given call of the selector. */
  function Winner(a: nat, b: nat, patchA: string, patchB: string, sel: Selector, call: nat): Option<nat> {
    WinnerOf(sel(call, patchA, patchB), sel(call + 1, patchB, patchA), a, b)
  }

  /** Shows the patches in both orders; the labels are swapped the second time. */
  method RunComparison(a: nat, b: nat, patchA: string, patchB: string, sel: Selector, call: nat)
    returns (v: Verdict, calls: nat)
    ensures calls == if sel(call, patchA, patchB).failed then 1 else 2
    ensures v.consistent <==> Consistent(sel(call, patchA, patchB), sel(call + 1, patchB, patchA))
    ensures v.consistent ==> v.winner == if sel(call, patchA, patchB).pick == "A" then a else b
    ensures Winner(a, b, patchA, patchB, sel, call) == if v.consistent then Some(v.winner) else None
  {
    var p1 := sel(call, patchA, patchB);
    if p1.failed {
      return Verdict(p1.pick, "", false, 0), 1;
    }
    var p2 := sel(call + 1, patchB, patchA);
    if p2.failed {
      return Verdict(p1.pick, p2.pick, false, 0), 2;
    }
    if p1.pick == p2.pick {
      return Verdict(p1.pick, p2.pick, false, 0), 2;
    }
    return Verdict(p1.pick, p2.pick, true, if p1.pick == "A" then a else b), 2;
  }

  /** The same question gets the same answer, whenever it is asked. */
  ghost predicate Steady(sel: Selector) {
    forall n, m, a, b :: sel(n, a, b) == sel(m, a, b)
  }

  /** With the selector that is shipped, showing the patches the other way round changes no winner. */
  lemma SwapSymmetry(a: nat, b: nat, patchA: string, patchB: string, model: Model, call1: nat, call2: nat)
    requires Steady(Shipped(model))
    ensures Winner(a, b, patchA, patchB, Shipped(model), call1) == Winner(b, a, patchB, patchA, Shipped(model), call2)
  {
    hide Compare, IsLabel, WinnerOf;
    var sel := Shipped(model);
    assert sel(call1, patchA, patchB) == Compare(model(call1, patchA, patchB));
    assert sel(call1 + 1, patchB, patchA) == Compare(model(call1 + 1, patchB, patchA));
    var p1, p2 := sel(call1, patchA, patchB), sel(call1 + 1, patchB, patchA);
    assert sel(call2, patchB, patchA) == p2 && sel(call2 + 1, patchA, patchB) == p1;
    LabelsSuffice(p1, p2, a, b);
  }

  /** Two picks that are labels, or failures, name the same winner either way round. */
  lemma LabelsSuffice(p1: Pick, p2: Pick, a: nat, b: nat)
    requires (!p1.failed ==> IsLabel(p1.pick)) && (!p2.failed ==> IsLabel(p2.pick))
    ensures WinnerOf(p1, p2, a, b) == WinnerOf(p2, p1, b, a)
  {
    assert "A"[0] != "B"[0];
  }

  /**
   With any other implementation of the interface a consistent verdict has this property exactly if one
   pick is "A".
  */
  lemma SwapIffLabel(a: nat, b: nat, patchA: string, patchB: string, sel: Selector, call1: nat, call2: nat)
    requires a != b && Steady(sel) && Winner(a, b, patchA, patchB, sel, call1).Some?
    ensures Winner(a, b, patchA, patchB, sel, call1) == Winner(b, a, patchB, patchA, sel, call2) <==>
            sel(call1, patchA, patchB).pick == "A" || sel(call1 + 1, patchB, patchA).pick == "A"
  {
    assert sel(call2, patchB, patchA) == sel(call1 + 1, patchB, patchA);
    assert sel(call2 + 1, patchA, patchB) == sel(call1, patchA, patchB);
  }

  /** Two labels of its own, and the order decides. */
  lemma OtherLabelsDoNot()
    ensures var p1, p2 := Pick("FIRST", false), Pick("SECOND", false);
            Consistent(p1, p2) && WinnerOf(p1, p2, 0, 1) != WinnerOf(p2, p1, 1, 0)
  {
    assert "FIRST"[0] != "SECOND"[0] && "FIRST"[0] != "A"[0] && "SECOND"[0] != "A"[0];
  }

  // ---- the tournament -------------------------------------------------------------------------------------------

  /** The attempts that left a patch, in order. */
  function Candidates(xs: seq<Attempt>): seq<nat> {
    if xs == [] then [] else Candidates(xs[..|xs| - 1]) + if xs[|xs| - 1].patched then [|xs| - 1] else []
  }

  lemma {:induction false} CandidatesMean(xs: seq<Attempt>)
    ensures forall i: nat :: i in Candidates(xs) <==> i < |xs| && xs[i].patched
    ensures forall j, k :: 0 <= j < k < |Candidates(xs)| ==> Candidates(xs)[j] < Candidates(xs)[k]
  {
    if xs != [] {
      var n := |xs| - 1;
      CandidatesMean(xs[..n]);
      var init, last := Candidates(xs[..n]), if xs[n].patched then [n] else [];
      assert Candidates(xs) == init + last;
      forall j, k | 0 <= j < k < |init + last| ensures (init + last)[j] < (init + last)[k] {
        if k == |init| {
          assert init[j] in init;
        }
      }
      forall i: nat ensures i in init + last <==> i < |xs| && xs[i].patched {
        assert i in init + last <==> i in init || i in last;
      }
    }
  }

  /** The selector answers by a strict preference over the patches. */
  ghost predicate Follows(sel: Selector, prefers: (string, string) -> bool) {
    && (forall a, b, c :: prefers(a, b) && prefers(b, c) ==> prefers(a, c))
    && (forall a, b :: a != b ==> (prefers(a, b) <==> !prefers(b, a)))
    && forall n, a, b :: a != b ==> sel(n, a, b) == Pick(if prefers(a, b) then "A" else "B", false)
  }

  /** A strict preference: any two different patches compare one way. */
  ghost predicate Strict(prefers: (string, string) -> bool) {
    && (forall a, b, c :: prefers(a, b) && prefers(b, c) ==> prefers(a, c))
    && forall a, b :: a != b ==> (prefers(a, b) <==> !prefers(b, a))
  }

  /** The reply gives this label: its letter, in either case, or prose that names it, and "A" goes first in prose. */
  ghost predicate Says(r: Reply, first: bool) {
    match r
    case NoReply => false
    case Parsed(pick) => if first then pick == "A" || pick == "a" else pick == "B" || pick == "b"
    case Prose(text) => if first then Names(text, "A") else Names(text, "B") && !Names(text, "A")
  }

  /** The model names the label of the preferred patch whenever it is asked about two different ones. */
  ghost predicate Voices(model: Model, prefers: (string, string) -> bool) {
    forall n, a, b :: a != b ==> Says(model(n, a, b), prefers(a, b))
  }

  /** The shipped selector follows a preference exactly if the model voices it. */
  lemma ShippedFollows(model: Model, prefers: (string, string) -> bool)
    requires Strict(prefers)
    ensures Follows(Shipped(model), prefers) <==> Voices(model, prefers)
  {
    hide Names;
    LabelsDiffer();
    forall n: nat, a: string, b: string | a != b
      ensures Shipped(model)(n, a, b) == Pick(if prefers(a, b) then "A" else "B", false) <==>
              Says(model(n, a, b), prefers(a, b))
    {
      SaysMeans(model(n, a, b), prefers(a, b));
    }
    if Voices(model, prefers) {
      assert forall n, a, b :: a != b ==> Shipped(model)(n, a, b) == Pick(if prefers(a, b) then "A" else "B", false);
    }
    if Follows(Shipped(model), prefers) {
      forall n: nat, a: string, b: string | a != b
        ensures Says(model(n, a, b), prefers(a, b))
      {
        assert Shipped(model)(n, a, b) == Pick(if prefers(a, b) then "A" else "B", false);
      }
    }
  }

  lemma SaysMeans(r: Reply, first: bool)
    ensures Compare(r) == Pick(if first then "A" else "B", false) <==> Says(r, first)
  {
    hide Names, Compare;
    LabelsDiffer();
    var p := Compare(r);
  }

  lemma LabelsDiffer()
    ensures "A" != "B" && "A" != "a" && "A" != "b" && "a" != "B" && "a" != "b" && "B" != "b"
  {
    assert "A"[0] != "B"[0] && "A"[0] != "a"[0] && "A"[0] != "b"[0] && "a"[0] != "B"[0] && "a"[0] != "b"[0]
           && "B"[0] != "b"[0];
  }

  /** No verdict is consistent. */
  predicate AllSplit(verdicts: seq<Verdict>) {
    forall v :: v in verdicts ==> !v.consistent
  }

  /** No two attempts left the same patch. */
  predicate AllDifferent(xs: seq<Attempt>, patches: seq<string>)
    requires |patches| == |xs|
  {
    forall i, j :: 0 <= i < |xs| && 0 <= j < |xs| && i != j && xs[i].patched && xs[j].patched ==>
        patches[i] != patches[j]
  }

  /** w is preferred to every other of the candidates cs. */
  predicate MostPreferred(patches: seq<string>, cs: seq<nat>, w: nat, prefers: (string, string) -> bool)
  {
    w < |patches| && forall c :: c in cs && c != w ==> c < |patches| && prefers(patches[w], patches[c])
  }

  /** w is the first best by structure among the candidates cs. */
  predicate BestAmong(xs: seq<Attempt>, cs: seq<nat>, w: nat)
  {
    w < |xs| && forall c :: c in cs && c != w ==> c < |xs| && !Before(xs[c], xs[w]) && (c < w ==> Before(xs[w], xs[c]))
  }

  /** A challenger that goes before the winner goes before all that the winner has beaten. */
  lemma ChallengerTakesOver(xs: seq<Attempt>, cs: seq<nat>, w: nat, c: nat)
    requires w < |xs| && c < |xs| && (forall d :: d in cs ==> d < c) && w in cs
    requires BestAmong(xs, cs, w)
    ensures BestAmong(xs, cs + [c], if Before(xs[c], xs[w]) then c else w)
  {
  }

  lemma PreferenceMovesOn(patches: seq<string>, cs: seq<nat>, w: nat, c: nat, sel: Selector,
          prefers: (string, string) -> bool)
    requires w < |patches| && c < |patches| && patches[w] != patches[c]
    requires Follows(sel, prefers) && MostPreferred(patches, cs, w, prefers) && w in cs
    ensures MostPreferred(patches, cs + [c], if prefers(patches[w], patches[c]) then w else c, prefers)
  {
    forall d | d in cs && prefers(patches[c], patches[w]) && d != w ensures prefers(patches[c], patches[d]) {
      assert prefers(patches[w], patches[d]);
    }
  }

  lemma FollowerIsConsistent(sel: Selector, prefers: (string, string) -> bool, n: nat, a: string, b: string)
    requires Follows(sel, prefers) && a != b
    ensures Consistent(sel(n, a, b), sel(n + 1, b, a))
    ensures sel(n, a, b).pick == "A" <==> prefers(a, b)
  {
    assert "A"[0] != "B"[0];
  }

  /** Attempts without a patch are ranked last, so the best of the candidates is the best of all. */
  lemma {:induction false} BestOfAll(xs: seq<Attempt>, w: nat)
    requires w < |xs| && w in Candidates(xs) && BestAmong(xs, Candidates(xs), w)
    ensures IsFirstBest(xs, w)
  {
    CandidatesMean(xs);
    hide Candidates;
    forall i: nat | i < |xs| && i != w
      ensures !Before(xs[i], xs[w]) && (i < w ==> Before(xs[w], xs[i]))
    {
      if xs[i].patched {
        assert i in Candidates(xs);
      }
    }
    assert !Before(xs[w], xs[w]);
    hide Before;
  }

  /** One challenge: the verdict decides if it is consistent, and the structure otherwise. */
  method Challenge(xs: seq<Attempt>, patches: seq<string>, w: nat, c: nat, sel: Selector, call: nat)
    returns (winner: nat, v: Verdict, calls: nat)
    requires |patches| == |xs| && w < |xs| && c < |xs|
    ensures calls <= 2 && v.winner == winner
    ensures v.consistent <==> Consistent(sel(call, patches[w], patches[c]), sel(call + 1, patches[c], patches[w]))
    ensures winner == if v.consistent then (if sel(call, patches[w], patches[c]).pick == "A" then w else c)
                      else if Before(xs[c], xs[w]) then c else w
  {
    v, calls := RunComparison(w, c, patches[w], patches[c], sel, call);
    if v.consistent {
      return v.winner, v, calls;
    }
    winner := w;
    var best := SelectByStructure([xs[w], xs[c]]);
    TwoByStructure(xs[w], xs[c], best);
    if best != 0 {
      winner := c;
    }
    v := v.(winner := winner);
  }

  lemma TwoByStructure(a: Attempt, b: Attempt, best: int)
    requires 0 <= best && IsFirstBest([a, b], best)
    ensures best != 0 <==> Before(b, a)
  {
    assert [a, b][0] == a && [a, b][1] == b;
  }

  /**
   The tournament.  prefers is whatever preference the selector may follow; if it follows none, the
   other guarantees stand.
  */
  method SelectBestOf(xs: seq<Attempt>, patches: seq<string>, sel: Selector, ghost prefers: (string, string) -> bool)
    returns (winner: int, verdicts: seq<Verdict>, calls: nat)
    requires |patches| == |xs|
    ensures Candidates(xs) == [] ==> winner == |xs| - 1 && verdicts == []
    ensures Candidates(xs) != [] ==> 0 <= winner < |xs| && xs[winner].patched && |verdicts| == |Candidates(xs)| - 1
    ensures Candidates(xs) != [] && AllSplit(verdicts) ==> IsFirstBest(xs, winner)
    ensures Candidates(xs) != [] && Follows(sel, prefers) && AllDifferent(xs, patches) ==>
              MostPreferred(patches, Candidates(xs), winner, prefers)
    ensures calls <= 2 * |verdicts|
  {
    hide *;
    var cs := Candidates(xs);
    CandidatesMean(xs);
    verdicts, calls := [], 0;
    if |cs| == 0 {
      return |xs| - 1, [], 0;
    }
    assert cs[0] in cs;
    FirstCandidate(xs, patches, cs[0], prefers);
    assert cs[..1] == [cs[0]];
    if |cs| == 1 {
      assert cs[..1] == cs;
      BestOfAll(xs, cs[0]);
      return cs[0], [], 0;
    }
    var w: nat := cs[0];
    ghost var fits := Follows(sel, prefers) && AllDifferent(xs, patches);
    var m := 1;
    while m < |cs|
      invariant 1 <= m <= |cs| && w in cs[..m] && w in cs && |verdicts| == m - 1 && calls <= 2 * |verdicts|
      invariant AllSplit(verdicts) ==> BestAmong(xs, cs[..m], w)
      invariant fits ==> MostPreferred(patches, cs[..m], w, prefers)
    {
      var c := cs[m];
      assert c in cs && cs[..m + 1] == cs[..m] + [c];
      BeatenBefore(cs, m);
      var next, v, used := Challenge(xs, patches, w, c, sel, calls);
      OneMoreVerdict(xs, patches, cs[..m], w, c, sel, calls, prefers, fits, verdicts, v, next);
      w, verdicts, calls := next, verdicts + [v], calls + used;
      m := m + 1;
    }
    assert cs[..m] == cs;
    if AllSplit(verdicts) {
      BestOfAll(xs, w);
    }
    winner := w;
  }

  lemma OneMoreVerdict(xs: seq<Attempt>, patches: seq<string>, cs: seq<nat>, w: nat, c: nat, sel: Selector, call: nat,
          prefers: (string, string) -> bool, fits: bool, verdicts: seq<Verdict>, v: Verdict, winner: nat)
    requires |patches| == |xs| && w < |xs| && c < |xs| && w in cs && (forall d :: d in cs ==> d < c) && xs[w].patched
             && xs[c].patched
    requires AllSplit(verdicts) ==> BestAmong(xs, cs, w)
    requires fits ==> Follows(sel, prefers) && AllDifferent(xs, patches) && MostPreferred(patches, cs, w, prefers)
    requires v.consistent <==> Consistent(sel(call, patches[w], patches[c]), sel(call + 1, patches[c], patches[w]))
    requires winner == if v.consistent then (if sel(call, patches[w], patches[c]).pick == "A" then w else c)
                       else if Before(xs[c], xs[w]) then c else w
    ensures winner in cs + [c]
    ensures AllSplit(verdicts + [v]) ==> BestAmong(xs, cs + [c], winner)
    ensures fits ==> MostPreferred(patches, cs + [c], winner, prefers)
  {
    assert v in verdicts + [v] && forall u :: u in verdicts ==> u in verdicts + [v];
    if AllSplit(verdicts + [v]) {
      ChallengerTakesOver(xs, cs, w, c);
    }
    if fits {
      assert patches[w] != patches[c];
      FollowerIsConsistent(sel, prefers, call, patches[w], patches[c]);
      PreferenceMovesOn(patches, cs, w, c, sel, prefers);
    }
    hide Follows, AllDifferent, MostPreferred, BestAmong, Before, Consistent;
  }

  lemma BeatenBefore(cs: seq<nat>, m: nat)
    requires m < |cs| && forall j, k :: 0 <= j < k < |cs| ==> cs[j] < cs[k]
    ensures forall d :: d in cs[..m] ==> d in cs && d < cs[m]
  {
  }

  lemma FirstCandidate(xs: seq<Attempt>, patches: seq<string>, c: nat, prefers: (string, string) -> bool)
    requires c < |xs| == |patches|
    ensures BestAmong(xs, [c], c) && MostPreferred(patches, [c], c, prefers)
  {
  }

  /**
   The tournament with the shipped selector: it picks the patch that the model prefers, if the model
   has a preference.
  */
  method SelectByModel(xs: seq<Attempt>, patches: seq<string>, model: Model, ghost prefers: (string, string) -> bool)
    returns (winner: int, verdicts: seq<Verdict>, calls: nat)
    requires |patches| == |xs|
    ensures Candidates(xs) == [] ==> winner == |xs| - 1 && verdicts == []
    ensures Candidates(xs) != [] ==> 0 <= winner < |xs| && xs[winner].patched && |verdicts| == |Candidates(xs)| - 1
    ensures Candidates(xs) != [] && AllSplit(verdicts) ==> IsFirstBest(xs, winner)
    ensures Candidates(xs) != [] && Strict(prefers) && Voices(model, prefers) && AllDifferent(xs, patches) ==>
              forall c :: 0 <= c < |xs| && c != winner && xs[c].patched ==> prefers(patches[winner], patches[c])
    ensures calls <= 2 * |verdicts|
  {
    winner, verdicts, calls := SelectBestOf(xs, patches, Shipped(model), prefers);
    CandidatesMean(xs);
    if Strict(prefers) && Voices(model, prefers) {
      ShippedFollows(model, prefers);
    }
    hide Candidates, Follows, Strict, Voices, AllDifferent, IsFirstBest, AllSplit;
  }
}
