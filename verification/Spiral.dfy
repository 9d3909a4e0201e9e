/**
 The explore-spiral detector.  A burst is a run of turns that only discover (list a directory,
 search); `frontier` remembers the targets it has seen, up to a cap, first in first out.
*/
module Spiral {

  type Turn = seq<string>

  datatype Kill = NoKill | Cycle | Wander

  function Elems(s: seq<string>): set<string> {
    if s == [] then {} else {s[0]} + Elems(s[1..])
  }

  predicate Distinct(s: seq<string>) {
    s == [] || (s[0] !in s[1..] && Distinct(s[1..]))
  }

  // ---- what a burst leaves in the frontier -------------------------------------------------------

  function Push(order: seq<string>, t: string, cap: nat): seq<string> {
    var o := order + [t];
    if |o| > cap then o[1..] else o
  }

  function Absorb(order: seq<string>, targets: Turn, cap: nat): seq<string>
    decreases |targets|
  {
    if targets == [] then order
    else Absorb(if targets[0] in order then order else Push(order, targets[0], cap), targets[1..], cap)
  }

  function FrontierAfter(burst: seq<Turn>, cap: nat): seq<string> {
    if burst == [] then []
    else Absorb(FrontierAfter(burst[..|burst| - 1], cap), burst[|burst| - 1], cap)
  }

  /** The turn names a target that the frontier does not hold. */
  predicate IsNovel(order: seq<string>, targets: Turn) {
    exists t :: t in targets && t !in order
  }

  /** Turn i of the burst added nothing new. */
  predicate QuietAt(burst: seq<Turn>, cap: nat, i: nat)
    requires i < |burst|
  {
    !IsNovel(FrontierAfter(burst[..i], cap), burst[i])
  }

  predicate QuietSuffix(burst: seq<Turn>, cap: nat, k: nat) {
    k <= |burst| && forall i :: |burst| - k <= i < |burst| ==> QuietAt(burst, cap, i)
  }

  predicate LongestQuiet(burst: seq<Turn>, cap: nat, k: nat) {
    QuietSuffix(burst, cap, k) && !QuietSuffix(burst, cap, k + 1)
  }

  lemma {:induction false} OneMoreTurn(burst: seq<Turn>, cap: nat, k: nat, t: Turn)
    requires LongestQuiet(burst, cap, k)
    ensures LongestQuiet(burst + [t], cap, if IsNovel(FrontierAfter(burst, cap), t) then 0 else k + 1)
  {
    var b, n := burst + [t], |burst|;
    assert b[..n] == burst && b[n] == t;
    forall i | 0 <= i < n
      ensures QuietAt(b, cap, i) == QuietAt(burst, cap, i)
    {
      assert b[..i] == burst[..i];
    }
    hide FrontierAfter, IsNovel;
    if !IsNovel(FrontierAfter(burst, cap), t) {
      assert QuietAt(b, cap, n);
      if k + 1 <= n {
        assert !QuietAt(burst, cap, n - k - 1);
      }
    } else {
      assert !QuietAt(b, cap, n);
    }
  }

  // ---- the frontier is the set of targets while they fit -----------------------------------------

  /** Every target the burst named. */
  function Targets(burst: seq<Turn>): set<string> {
    if burst == [] then {} else Targets(burst[..|burst| - 1]) + Elems(burst[|burst| - 1])
  }

  lemma {:induction false} ElemsIn(s: seq<string>)
    ensures forall x :: x in Elems(s) <==> x in s
  {
    if s != [] {
      ElemsIn(s[1..]);
      assert s == [s[0]] + s[1..];
    }
  }

  lemma {:induction false} DistinctSize(s: seq<string>)
    requires Distinct(s)
    ensures |Elems(s)| == |s|
  {
    if s != [] {
      ElemsIn(s[1..]);
      DistinctSize(s[1..]);
    }
  }

  lemma {:induction false} ElemsSnoc(s: seq<string>, t: string)
    ensures Elems(s + [t]) == Elems(s) + {t}
  {
    if s == [] {
      assert [] + [t] == [t];
    } else {
      assert (s + [t])[1..] == s[1..] + [t];
      ElemsSnoc(s[1..], t);
    }
  }

  lemma {:induction false} DistinctSnoc(s: seq<string>, t: string)
    requires Distinct(s) && t !in s
    ensures Distinct(s + [t])
  {
    if s != [] {
      assert (s + [t])[1..] == s[1..] + [t];
      DistinctSnoc(s[1..], t);
    }
  }

  /** Pushing a new target keeps the frontier duplicate-free and within the cap. */
  lemma {:induction false} PushKeeps(order: seq<string>, t: string, cap: nat)
    requires Distinct(order) && |order| <= cap && cap >= 1 && t !in order
    ensures Distinct(Push(order, t, cap)) && |Push(order, t, cap)| <= cap
    ensures |order| < cap ==> Elems(Push(order, t, cap)) == Elems(order) + {t}
    ensures |order| == cap ==> Elems(Push(order, t, cap)) == Elems(order) + {t} - {order[0]}
  {
    ElemsSnoc(order, t);
    DistinctSnoc(order, t);
    if |order| == cap {
      ElemsIn(order[1..] + [t]);
      ElemsIn(order + [t]);
      assert order + [t] == [order[0]] + (order[1..] + [t]);
    }
  }

  lemma {:induction false} AbsorbKeeps(order: seq<string>, targets: Turn, cap: nat)
    requires Distinct(order) && |order| <= cap && cap >= 1
    ensures Distinct(Absorb(order, targets, cap)) && |Absorb(order, targets, cap)| <= cap
    decreases |targets|
  {
    if targets != [] {
      if targets[0] in order {
        AbsorbKeeps(order, targets[1..], cap);
      } else {
        PushKeeps(order, targets[0], cap);
        AbsorbKeeps(Push(order, targets[0], cap), targets[1..], cap);
      }
    }
  }

  lemma {:induction false} FrontierKeeps(burst: seq<Turn>, cap: nat)
    requires cap >= 1
    ensures Distinct(FrontierAfter(burst, cap)) && |FrontierAfter(burst, cap)| <= cap
  {
    if burst != [] {
      FrontierKeeps(burst[..|burst| - 1], cap);
      AbsorbKeeps(FrontierAfter(burst[..|burst| - 1], cap), burst[|burst| - 1], cap);
    }
  }

  lemma SubsetSize(a: set<string>, b: set<string>)
    requires a <= b
    ensures |a| <= |b|
  {
    assert b == a + (b - a);
  }

  lemma {:induction false} AbsorbFits(order: seq<string>, targets: Turn, cap: nat)
    requires Distinct(order) && |order| <= cap && cap >= 1
    requires |Elems(order) + Elems(targets)| <= cap
    ensures Elems(Absorb(order, targets, cap)) == Elems(order) + Elems(targets)
    decreases |targets|
  {
    if targets != [] {
      var t, rest := targets[0], targets[1..];
      ElemsIn(order);
      if t in order {
        assert Elems(order) + Elems(rest) == Elems(order) + Elems(targets);
        AbsorbFits(order, rest, cap);
      } else {
        DistinctSize(order);
        SubsetSize(Elems(order) + {t}, Elems(order) + Elems(targets));
        PushKeeps(order, t, cap);
        assert Elems(order) + {t} + Elems(rest) == Elems(order) + Elems(targets);
        AbsorbFits(Push(order, t, cap), rest, cap);
      }
    }
  }

  /** While the burst has named at most cap targets, the frontier holds exactly those. */
  lemma {:induction false} FrontierIsTargets(burst: seq<Turn>, cap: nat)
    requires cap >= 1 && |Targets(burst)| <= cap
    ensures Elems(FrontierAfter(burst, cap)) == Targets(burst)
  {
    if burst != [] {
      var init, last := burst[..|burst| - 1], burst[|burst| - 1];
      SubsetSize(Targets(init), Targets(burst));
      FrontierIsTargets(init, cap);
      FrontierKeeps(init, cap);
      AbsorbFits(FrontierAfter(init, cap), last, cap);
    }
  }

  lemma {:induction false} AbsorbedFrom(order: seq<string>, targets: Turn, cap: nat)
    ensures Elems(Absorb(order, targets, cap)) <= Elems(order) + Elems(targets)
    decreases |targets|
  {
    if targets != [] {
      var t, rest := targets[0], targets[1..];
      if t in order {
        AbsorbedFrom(order, rest, cap);
      } else {
        AbsorbedFrom(Push(order, t, cap), rest, cap);
        ElemsSnoc(order, t);
        ElemsIn(order + [t]);
        ElemsIn(Push(order, t, cap));
      }
    }
  }

  /** The frontier never holds anything the burst did not name. */
  lemma {:induction false} FrontierFromTargets(burst: seq<Turn>, cap: nat)
    ensures Elems(FrontierAfter(burst, cap)) <= Targets(burst)
  {
    if burst != [] {
      var init, last := burst[..|burst| - 1], burst[|burst| - 1];
      FrontierFromTargets(init, cap);
      AbsorbedFrom(FrontierAfter(init, cap), last, cap);
    }
  }

  /** "New" means never seen in the burst. */
  ghost predicate NewMeansUnseen(burst: seq<Turn>, cap: nat) {
    forall t: Turn :: IsNovel(FrontierAfter(burst, cap), t) <==> exists x :: x in t && x !in Targets(burst)
  }

  /**
   It does exactly as long as the burst has named at most cap targets: beyond that a forgotten one
   counts as new again.
  */
  lemma {:induction false} NovelIffWithinCap(burst: seq<Turn>, cap: nat)
    requires cap >= 1
    ensures NewMeansUnseen(burst, cap) <==> |Targets(burst)| <= cap
  {
    FrontierFromTargets(burst, cap);
    FrontierKeeps(burst, cap);
    var order := FrontierAfter(burst, cap);
    DistinctSize(order);
    ElemsIn(order);
    if |Targets(burst)| <= cap {
      FrontierIsTargets(burst, cap);
    } else {
      ForgottenTarget(Elems(order), Targets(burst));
      var x :| x in Targets(burst) && x !in Elems(order);
      ForgottenCountsAsNew(burst, cap, x);
    }
  }

  /** The smallest burst for which it fails. */
  lemma ForgottenIsNovel()
    ensures var burst := [["a", "b"]]; !NewMeansUnseen(burst, 1) && Targets(burst) == {"a", "b"}
  {
    var burst := [["a", "b"]];
    assert burst[..0] == [] && ["a", "b"][1..] == ["b"] && ["b"][1..] == [];
    assert "a"[0] != "b"[0];
    assert Targets(burst) == {"a", "b"};
    NovelIffWithinCap(burst, 1);
  }

  lemma ForgottenTarget(held: set<string>, named: set<string>)
    requires held <= named && |held| < |named|
    ensures exists x :: x in named && x !in held
  {
    assert named == held + (named - held);
    assert |named - held| > 0;
    var x :| x in named - held;
  }

  lemma {:induction false} ForgottenCountsAsNew(burst: seq<Turn>, cap: nat, x: string)
    requires x in Targets(burst) && x !in FrontierAfter(burst, cap)
    ensures !NewMeansUnseen(burst, cap)
  {
    hide FrontierAfter, Targets;
    var t := [x];
    assert x in t;
    assert IsNovel(FrontierAfter(burst, cap), t);
    assert forall y :: y in t ==> y == x;
  }

  // ---- the detector ------------------------------------------------------------------------------

  /** What the detector remembers of a burst. */
  predicate Remembers(burst: seq<Turn>, cap: nat, visited: set<string>, order: seq<string>) {
    order == FrontierAfter(burst, cap) && visited == Elems(order)
  }

  /** The burst has reached one of the bounds. */
  ghost predicate Spent(burst: seq<Turn>, cap: nat, window: int, wanderMultiple: int) {
    exists k: nat :: LongestQuiet(burst, cap, k) && (k >= window || |burst| >= wanderMultiple * window)
  }

  lemma QuietIsMaximal(burst: seq<Turn>, cap: nat, k: nat, j: nat)
    requires LongestQuiet(burst, cap, k)
    ensures QuietSuffix(burst, cap, j) <==> j <= k
  {
    hide QuietAt;
  }

  class SpiralState {
    const window: int
    const wanderMultiple: int
    const frontierCap: nat

    var visited: set<string>
    var order: seq<string>
    var cycleRun: nat
    var wander: nat

    ghost var burst: seq<Turn>   // the discovery turns since the last reset

    ghost predicate Valid()
      reads this
    {
      && frontierCap >= 1
      && Remembers(burst, frontierCap, visited, order)
      && LongestQuiet(burst, frontierCap, cycleRun) && wander == |burst|
    }

    /** The burst has not reached either bound. */
    predicate Alive()
      reads this
    {
      cycleRun < window && wander < wanderMultiple * window
    }

    lemma AliveIff()
      requires Valid()
      ensures Alive() <==> !Spent(burst, frontierCap, window, wanderMultiple)
    {
      hide QuietSuffix, Remembers;
      forall k: nat | LongestQuiet(burst, frontierCap, k)
        ensures k == cycleRun
      {
        QuietIsMaximal(burst, frontierCap, k, cycleRun);
        QuietIsMaximal(burst, frontierCap, cycleRun, k);
      }
    }

    constructor (window: int, wanderMultiple: int, frontierCap: nat)
      requires frontierCap >= 1
      ensures Valid() && burst == []
      ensures this.window == window && this.wanderMultiple == wanderMultiple && this.frontierCap == frontierCap
    {
      this.window, this.wanderMultiple, this.frontierCap := window, wanderMultiple, frontierCap;
      visited, order, cycleRun, wander, burst := {}, [], 0, 0, [];
    }

    /** Takes in a discovery-only turn.  It kills exactly when the bounds are reached. */
    method ObserveDiscoveryTurn(targets: Turn) returns (kind: Kill)
      requires Valid()
      modifies this
      ensures Valid() && burst == old(burst) + [targets]
      ensures kind == if cycleRun >= window then Cycle else if wander >= wanderMultiple * window then Wander else NoKill
      ensures kind.NoKill? <==> Alive()
    {
      OneMoreTurn(burst, frontierCap, cycleRun, targets);
      var novel := AddTargets(targets);
      assert burst + [targets] != [] && (burst + [targets])[..|burst|] == burst;
      assert FrontierAfter(burst + [targets], frontierCap) ==
             Absorb(FrontierAfter(burst, frontierCap), targets, frontierCap);
      hide FrontierAfter, LongestQuiet, Elems, IsNovel;
      wander := wander + 1;
      if novel {
        cycleRun := 0;
      } else {
        cycleRun := cycleRun + 1;
      }
      burst := burst + [targets];
      if cycleRun >= window {
        return Cycle;
      }
      if wander >= wanderMultiple * window {
        return Wander;
      }
      return NoKill;
    }

    method AddTargets(targets: Turn) returns (novel: bool)
      requires frontierCap >= 1 && Remembers(burst, frontierCap, visited, order)
      modifies this`visited, this`order
      ensures order == Absorb(FrontierAfter(burst, frontierCap), targets, frontierCap) && visited == Elems(order)
      ensures novel == IsNovel(FrontierAfter(burst, frontierCap), targets)
    {
      FrontierKeeps(burst, frontierCap);
      ghost var start := order;
      hide FrontierAfter;
      novel := false;
      var i := 0;
      while i < |targets|
        invariant i <= |targets| && visited == Elems(order) && Distinct(order) && |order| <= frontierCap
        invariant Absorb(order, targets[i..], frontierCap) == Absorb(start, targets, frontierCap)
        invariant novel == IsNovel(start, targets[..i])
        invariant !novel ==> order == start
      {
        hide IsNovel, Distinct;
        NovelSnoc(start, targets, i);
        ElemsIn(order);
        assert targets[i..][0] == targets[i] && targets[i..][1..] == targets[i + 1..];
        if targets[i] !in visited {
          novel := true;
          Add(targets[i]);
        }
        i := i + 1;
      }
      assert targets[..i] == targets;
    }

    /** Records a new target; at the cap the oldest goes. */
    method Add(t: string)
      requires frontierCap >= 1 && visited == Elems(order) && Distinct(order) && |order| <= frontierCap && t !in order
      modifies this`visited, this`order
      ensures order == Push(old(order), t, frontierCap)
      ensures visited == Elems(order) && Distinct(order) && |order| <= frontierCap
    {
      PushKeeps(order, t, frontierCap);
      ElemsSnoc(order, t);
      hide Elems, Distinct;
      visited := visited + {t};
      order := order + [t];
      if |order| > frontierCap {
        visited := visited - {order[0]};
        order := order[1..];
      }
    }

    /** Any turn that is not pure discovery starts a new burst. */
    method Reset()
      requires Valid()
      modifies this
      ensures Valid() && burst == []
    {
      cycleRun, wander, visited, order, burst := 0, 0, {}, [], [];
    }
  }

  lemma NovelSnoc(order: seq<string>, targets: Turn, i: nat)
    requires i < |targets|
    ensures IsNovel(order, targets[..i + 1]) == (IsNovel(order, targets[..i]) || targets[i] !in order)
  {
    assert targets[..i + 1] == targets[..i] + [targets[i]];
  }

  /** No burst outlives its bounds: what is still alive is short, and has seen something new recently. */
  lemma AliveIsBounded(burst: seq<Turn>, cap: nat, quiet: nat, window: int, wanderMultiple: int)
    requires LongestQuiet(burst, cap, quiet) && quiet < window && |burst| < wanderMultiple * window
    requires |burst| >= window
    ensures exists i :: |burst| - window <= i < |burst| && !QuietAt(burst, cap, i)
  {
    hide QuietAt;
    assert !QuietSuffix(burst, cap, quiet + 1);
  }
}
