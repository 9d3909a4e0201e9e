/**
 What the detectors of a run compare, in terms of the turns themselves: which calls were repeated, what
 they showed again, and where the run kept looking around.
*/
module NativeRepeats {
  import opened Transcript
  import opened Generate
  import opened Gates
  import opened NativeDispatch
  import opened NativeTrace
  import opened Texts
  import Tracker
  import Spiral
  import Runs

  // ---- what signatures tell apart -----------------------------------------------------------------------

  /** The same tools are called with the same arguments, in the same order. */
  predicate SameCalls(cs: seq<Call>, ds: seq<Call>, argOf: Call -> string) {
    |cs| == |ds| && forall k :: 0 <= k < |cs| ==> cs[k].name == ds[k].name && argOf(cs[k]) == argOf(ds[k])
  }

  /** Tool names hold no space. */
  predicate PlainNames(cs: seq<Call>) {
    forall k :: 0 <= k < |cs| ==> Delimited(cs[k].name, " ")
  }

  /** Arguments neither hold the text that separates calls, nor end with the start of it. */
  predicate PlainArgs(cs: seq<Call>, argOf: Call -> string) {
    forall k :: 0 <= k < |cs| ==> Delimited(argOf(cs[k]), " | ")
  }

  /** What a signature is made of. */
  lemma {:induction false} SignatureIs(cs: seq<Call>, argOf: Call -> string)
    requires cs != []
    ensures |cs| == 1 ==> TurnSignature(cs, argOf) == cs[0].name + " " + argOf(cs[0])
    ensures |cs| > 1 ==>
              TurnSignature(cs, argOf) == cs[0].name + " " + (argOf(cs[0]) + " | " + TurnSignature(cs[1..], argOf))
  {
    assert |cs| == 1 ==> cs[0].name + " " + argOf(cs[0]) + "" == cs[0].name + " " + argOf(cs[0]);
  }

  /**
   Equal signatures mean the same calls: for turns of one call each whatever the arguments are, and
   otherwise if the arguments can be told from what separates them.
  */
  lemma {:induction false} SignatureTells(cs: seq<Call>, ds: seq<Call>, argOf: Call -> string)
    requires cs != [] && ds != [] && PlainNames(cs) && PlainNames(ds)
    requires (|cs| == 1 && |ds| == 1) || (PlainArgs(cs, argOf) && PlainArgs(ds, argOf))
    ensures TurnSignature(cs, argOf) == TurnSignature(ds, argOf) <==> SameCalls(cs, ds, argOf)
    decreases |cs|
  {
    hide TurnSignature, Delimited;
    SignatureIs(cs, argOf);
    SignatureIs(ds, argOf);
    var a, b := argOf(cs[0]), argOf(ds[0]);
    var x := if |cs| == 1 then a else a + " | " + TurnSignature(cs[1..], argOf);
    var y := if |ds| == 1 then b else b + " | " + TurnSignature(ds[1..], argOf);
    SplitUnique(cs[0].name, ds[0].name, " ", x, y);
    if |cs| == 1 && |ds| > 1 {
      NoSplit(a, b, " | ", TurnSignature(ds[1..], argOf));
    } else if |cs| > 1 && |ds| == 1 {
      NoSplit(b, a, " | ", TurnSignature(cs[1..], argOf));
    } else if |cs| > 1 {
      SplitUnique(a, b, " | ", TurnSignature(cs[1..], argOf), TurnSignature(ds[1..], argOf));
      SignatureTells(cs[1..], ds[1..], argOf);
      SameCallsHead(cs, ds, argOf);
    }
  }

  lemma SameCallsHead(cs: seq<Call>, ds: seq<Call>, argOf: Call -> string)
    requires cs != [] && ds != []
    ensures SameCalls(cs, ds, argOf) <==>
            cs[0].name == ds[0].name && argOf(cs[0]) == argOf(ds[0]) && SameCalls(cs[1..], ds[1..], argOf)
  {
    if cs[0].name == ds[0].name && argOf(cs[0]) == argOf(ds[0]) && SameCalls(cs[1..], ds[1..], argOf) {
      forall k | 0 <= k < |cs| ensures cs[k].name == ds[k].name && argOf(cs[k]) == argOf(ds[k]) {
        assert k > 0 ==> cs[k] == cs[1..][k - 1] && ds[k] == ds[1..][k - 1];
      }
    }
  }

  /** The same calls always have the same signature. */
  lemma {:induction false} SameCallsSign(cs: seq<Call>, ds: seq<Call>, argOf: Call -> string)
    requires SameCalls(cs, ds, argOf)
    ensures TurnSignature(cs, argOf) == TurnSignature(ds, argOf)
    decreases |cs|
  {
    if cs != [] {
      SameCallsHead(cs, ds, argOf);
      SameCallsSign(cs[1..], ds[1..], argOf);
    }
  }

  /** With a separator among the arguments the converse fails: one call is taken for two. */
  lemma SignaturesCollide()
    ensures var argOf := (c: Call) => c.args;
            var one, two := [Call("1", "run", "a | run b")], [Call("1", "run", "a"), Call("2", "run", "b")];
            TurnSignature(one, argOf) == TurnSignature(two, argOf) && !SameCalls(one, two, argOf)
  {
    var argOf := (c: Call) => c.args;
    var two := [Call("1", "run", "a"), Call("2", "run", "b")];
    assert two[1..] == [Call("2", "run", "b")];
    SignatureIs([Call("2", "run", "b")], argOf);
    SignatureIs(two, argOf);
    SignatureIs([Call("1", "run", "a | run b")], argOf);
  }

  // ---- what observations tell apart ---------------------------------------------------------------------

  const SHOWN_SEP := "\nOBSERVATION:\n"
  const CALL_SEP := "\n---CALL---\n"

  /** Turn i made the calls cs and turn j the calls ds: the same calls, and each showed the same. */
  predicate SameShown(w: World, i: nat, cs: seq<Call>, j: nat, ds: seq<Call>) {
    && SameCalls(cs, ds, w.argOf)
    && forall k :: 0 <= k < |cs| ==> w.tools.answer(i, k).raw == w.tools.answer(j, k).raw
  }

  /** Arguments and outputs can be told from what separates them; the output of a single call may be anything. */
  predicate PlainShown(w: World, i: nat, cs: seq<Call>) {
    && PlainNames(cs)
    && forall k :: 0 <= k < |cs| ==> Delimited(w.argOf(cs[k]), SHOWN_SEP)
  }

  predicate PlainOutputs(w: World, i: nat, cs: seq<Call>) {
    forall k :: 0 <= k < |cs| ==> Delimited(w.tools.answer(i, k).raw, CALL_SEP)
  }

  lemma {:induction false} KeyIs(w: World, i: nat, cs: seq<Call>, n: nat)
    requires n < |cs|
    ensures var rest := if n + 1 == |cs| then w.tools.answer(i, n).raw
                        else w.tools.answer(i, n).raw + CALL_SEP + ObservationKey(i, cs, n + 1, w);
            ObservationKey(i, cs, n, w) == cs[n].name + " " + (w.argOf(cs[n]) + SHOWN_SEP + rest)
  {
    var raw := w.tools.answer(i, n).raw;
    if n + 1 == |cs| {
      assert cs[n].name + " " + w.argOf(cs[n]) + SHOWN_SEP + raw + "" ==
             cs[n].name + " " + (w.argOf(cs[n]) + SHOWN_SEP + raw);
    } else {
      var key := ObservationKey(i, cs, n + 1, w);
      assert cs[n].name + " " + w.argOf(cs[n]) + SHOWN_SEP + raw + (CALL_SEP + key) ==
             cs[n].name + " " + (w.argOf(cs[n]) + SHOWN_SEP + (raw + CALL_SEP + key));
    }
  }

  /** Equal observations from call n on mean that the same calls showed the same from there on. */
  lemma {:induction false} KeyTells(w: World, i: nat, cs: seq<Call>, j: nat, ds: seq<Call>, n: nat)
    requires n < |cs| && n < |ds| && PlainShown(w, i, cs) && PlainShown(w, j, ds)
    requires (|cs| == 1 && |ds| == 1) || (PlainOutputs(w, i, cs) && PlainOutputs(w, j, ds))
    ensures ObservationKey(i, cs, n, w) == ObservationKey(j, ds, n, w) <==> SameFrom(w, i, cs, j, ds, n)
    decreases |cs| - n
  {
    hide ObservationKey, Delimited, SHOWN_SEP, CALL_SEP;
    KeyIs(w, i, cs, n);
    KeyIs(w, j, ds, n);
    NotEmpty();
    var p, q := w.tools.answer(i, n).raw, w.tools.answer(j, n).raw;
    var x := if n + 1 == |cs| then p else p + CALL_SEP + ObservationKey(i, cs, n + 1, w);
    var y := if n + 1 == |ds| then q else q + CALL_SEP + ObservationKey(j, ds, n + 1, w);
    SplitUnique(cs[n].name, ds[n].name, " ", w.argOf(cs[n]) + SHOWN_SEP + x, w.argOf(ds[n]) + SHOWN_SEP + y);
    SplitUnique(w.argOf(cs[n]), w.argOf(ds[n]), SHOWN_SEP, x, y);
    if n + 1 == |cs| && n + 1 < |ds| {
      NoSplit(p, q, CALL_SEP, ObservationKey(j, ds, n + 1, w));
    } else if n + 1 < |cs| && n + 1 == |ds| {
      NoSplit(q, p, CALL_SEP, ObservationKey(i, cs, n + 1, w));
    } else if n + 1 < |cs| {
      SplitUnique(p, q, CALL_SEP, ObservationKey(i, cs, n + 1, w), ObservationKey(j, ds, n + 1, w));
      KeyTells(w, i, cs, j, ds, n + 1);
    }
  }

  lemma NotEmpty()
    ensures SHOWN_SEP != "" && CALL_SEP != ""
  {
  }

  predicate SameFrom(w: World, i: nat, cs: seq<Call>, j: nat, ds: seq<Call>, n: nat) {
    |cs| == |ds| && forall k :: n <= k < |cs| ==>
      cs[k].name == ds[k].name && w.argOf(cs[k]) == w.argOf(ds[k])
        && w.tools.answer(i, k).raw == w.tools.answer(j, k).raw
  }

  /** Equal observations mean that the same calls showed the same. */
  lemma {:induction false} ObservationTells(w: World, i: nat, cs: seq<Call>, j: nat, ds: seq<Call>)
    requires cs != [] && ds != [] && PlainShown(w, i, cs) && PlainShown(w, j, ds)
    requires (|cs| == 1 && |ds| == 1) || (PlainOutputs(w, i, cs) && PlainOutputs(w, j, ds))
    ensures ObservationKey(i, cs, 0, w) == ObservationKey(j, ds, 0, w) <==> SameShown(w, i, cs, j, ds)
  {
    KeyTells(w, i, cs, j, ds, 0);
    hide ObservationKey, Delimited;
  }

  // ---- the turns of a run -----------------------------------------------------------------------------------

  /** A turn that took in its response and acted on it. */
  predicate ActedIn(r: Run, t: Record) {
    !t.reach.Failed? && Acts(ContentAt(r.w, t), r.pol)
  }

  /** The calls of the turns that acted, in order. */
  function ActedCalls(r: Run, trace: seq<Record>): seq<seq<Call>> {
    if trace == [] then []
    else
      ActedCalls(r, Prior(trace)) +
      if ActedIn(r, Latest(trace)) then [ToolCalls(ContentAt(r.w, Latest(trace)))] else []
  }

  /** The turns that acted and saw all of their calls through, by number and calls. */
  function ObservedCalls(r: Run, trace: seq<Record>): seq<(nat, seq<Call>)> {
    if trace == [] then []
    else
      ObservedCalls(r, Prior(trace)) +
      if ActedIn(r, Latest(trace)) && (Latest(trace).reach.Stalled? || Latest(trace).reach.Whole?)
      then [(|trace|, ToolCalls(ContentAt(r.w, Latest(trace))))] else []
  }

  /** sigs are the signatures of these turns. */
  predicate SignedBy(sigs: seq<string>, turns: seq<seq<Call>>, argOf: Call -> string) {
    |sigs| == |turns| && forall k :: 0 <= k < |turns| ==> turns[k] != [] && sigs[k] == TurnSignature(turns[k], argOf)
  }

  predicate ShownBy(observations: seq<string>, turns: seq<(nat, seq<Call>)>, w: World) {
    |observations| == |turns| && forall k :: 0 <= k < |turns| ==>
      turns[k].1 != [] && observations[k] == ObservationKey(turns[k].0, turns[k].1, 0, w)
  }

  lemma {:induction false} SeenMeans(r: Run, trace: seq<Record>)
    ensures SignedBy(SeenOf(r, trace).sigs, ActedCalls(r, trace), r.w.argOf)
    ensures ShownBy(SeenOf(r, trace).observations, ObservedCalls(r, trace), r.w)
    decreases |trace|
  {
    hide *;
    if trace == [] {
      NothingSeen(r);
    } else {
      PriorIs(trace);
      SeenMeans(r, Prior(trace));
      LatestSeen(r, trace);
      OneMoreSigned(SeenOf(r, Prior(trace)).sigs, ActedCalls(r, Prior(trace)), ToolCalls(ContentAt(r.w, Latest(trace))),
                    r.w.argOf);
      OneMoreShown(SeenOf(r, Prior(trace)).observations, ObservedCalls(r, Prior(trace)), |trace|,
                   ToolCalls(ContentAt(r.w, Latest(trace))), r.w);
    }
  }

  lemma {:induction false} NothingSeen(r: Run)
    ensures SignedBy(SeenOf(r, []).sigs, ActedCalls(r, []), r.w.argOf)
    ensures ShownBy(SeenOf(r, []).observations, ObservedCalls(r, []), r.w)
    ensures BurstOf(SeenOf(r, []).burst, ActedCalls(r, []), r.w.targetOf)
  {
  }

  /** What the last turn adds. */
  lemma {:induction false} LatestSeen(r: Run, trace: seq<Record>)
    requires trace != []
    ensures var t, before, seen := Latest(trace), SeenOf(r, Prior(trace)), SeenOf(r, trace);
            var cs, acted := ToolCalls(ContentAt(r.w, t)), ActedIn(r, t);
            var observed := acted && (t.reach.Stalled? || t.reach.Whole?);
            && (acted ==> cs != [])
            && seen.sigs == (if acted then before.sigs + [TurnSignature(cs, r.w.argOf)] else before.sigs)
            && ActedCalls(r, trace) ==
               (if acted then ActedCalls(r, Prior(trace)) + [cs] else ActedCalls(r, Prior(trace)))
            && seen.observations ==
               (if observed then before.observations + [ObservationKey(|trace|, cs, 0, r.w)] else before.observations)
            && ObservedCalls(r, trace) ==
               (if observed then ObservedCalls(r, Prior(trace)) + [(|trace|, cs)] else ObservedCalls(r, Prior(trace)))
            && seen.burst ==
               (if !acted || t.reach.Repeated? then before.burst
                else if AllDiscovery(cs) then before.burst + [TargetsOf(cs, r.w.targetOf)] else [])
  {
    hide TurnSignature, ObservationKey, ContentAt, ActEvents, FinishEvents, TargetsOf, AllDiscovery, Finishes, FindCall,
      Prior, Latest;
  }

  lemma {:induction false} OneMoreSigned(sigs: seq<string>, turns: seq<seq<Call>>, cs: seq<Call>, argOf: Call -> string)
    requires SignedBy(sigs, turns, argOf)
    ensures cs != [] ==> SignedBy(sigs + [TurnSignature(cs, argOf)], turns + [cs], argOf)
  {
    hide TurnSignature;
  }

  lemma {:induction false} OneMoreShown(observations: seq<string>, turns: seq<(nat, seq<Call>)>, i: nat, cs: seq<Call>,
          w: World)
    requires ShownBy(observations, turns, w)
    ensures cs != [] ==> ShownBy(observations + [ObservationKey(i, cs, 0, w)], turns + [(i, cs)], w)
  {
    hide ObservationKey;
  }

  /** The last n turns all make the same calls. */
  predicate AlikeCalls(turns: seq<seq<Call>>, argOf: Call -> string, n: nat) {
    n <= |turns| && forall k :: |turns| - n <= k < |turns| ==> SameCalls(turns[k], turns[|turns| - 1], argOf)
  }

  predicate AlikeShown(turns: seq<(nat, seq<Call>)>, w: World, n: nat) {
    && n <= |turns|
    && forall k :: |turns| - n <= k < |turns| ==>
         SameShown(w, turns[k].0, turns[k].1, turns[|turns| - 1].0, turns[|turns| - 1].1)
  }

  /** The turns are all of one call, or their arguments can be told from the separator. */
  predicate Legible(turns: seq<seq<Call>>, argOf: Call -> string) {
    && (forall k :: 0 <= k < |turns| ==> PlainNames(turns[k]))
    && ((forall k :: 0 <= k < |turns| ==> |turns[k]| == 1)
         || (forall k :: 0 <= k < |turns| ==> PlainArgs(turns[k], argOf)))
  }

  predicate LegibleShown(turns: seq<(nat, seq<Call>)>, w: World) {
    && (forall k :: 0 <= k < |turns| ==> PlainShown(w, turns[k].0, turns[k].1))
    && ((forall k :: 0 <= k < |turns| ==> |turns[k].1| == 1)
        || (forall k :: 0 <= k < |turns| ==> PlainOutputs(w, turns[k].0, turns[k].1)))
  }

  /** As many turns as that make a repetition. */
  function LeastRepeats(pol: LoopPolicy, advanced: bool): nat {
    var limit := if advanced then pol.maxReasoningRepeats else pol.maxRepeats;
    if limit >= 1 then limit + 1 else 2
  }

  function LeastEchoes(pol: LoopPolicy): nat {
    if pol.maxReasoningRepeats >= 1 then pol.maxReasoningRepeats else 1
  }

  lemma ReissuedMeans(pol: LoopPolicy, advanced: bool, sigs: seq<string>, turns: seq<seq<Call>>, argOf: Call -> string)
    requires SignedBy(sigs, turns, argOf) && Legible(turns, argOf)
    ensures Reissued(pol, advanced, sigs) <==> AlikeCalls(turns, argOf, LeastRepeats(pol, advanced))
  {
    hide TurnSignature, Tracker.EndsInSeries, SameCalls, PlainNames, PlainArgs;
    var n := LeastRepeats(pol, advanced);
    Tracker.SeriesIff(sigs, n);
    if n <= |turns| {
      var last := |turns| - 1;
      forall k | |turns| - n <= k < |turns|
        ensures sigs[k] != "" && (sigs[k] == sigs[last] <==> SameCalls(turns[k], turns[last], argOf))
      {
        SignatureNotEmpty(turns[k], argOf);
        SignatureTells(turns[k], turns[last], argOf);
      }
    }
  }

  lemma EchoesMeans(pol: LoopPolicy, observations: seq<string>, turns: seq<(nat, seq<Call>)>, w: World)
    requires ShownBy(observations, turns, w) && LegibleShown(turns, w)
    ensures Echoes(pol, observations) <==> AlikeShown(turns, w, LeastEchoes(pol))
  {
    hide ObservationKey, Tracker.EndsInSeries, SameShown, PlainShown, PlainOutputs;
    var n := LeastEchoes(pol);
    Tracker.SeriesIff(observations, n);
    if n <= |turns| {
      var last := |turns| - 1;
      forall k | |turns| - n <= k < |turns|
        ensures observations[k] != ""
        ensures observations[k] == observations[last] <==>
                SameShown(w, turns[k].0, turns[k].1, turns[last].0, turns[last].1)
      {
        ObservationNotEmpty(turns[k].0, turns[k].1, w);
        ObservationTells(w, turns[k].0, turns[k].1, turns[last].0, turns[last].1);
      }
    }
  }

  /**
   A turn is cut before dispatch exactly if with it the run has made the same calls, with the same
   arguments, as often in a row as is allowed.
  */
  lemma {:induction false} RepeatedIff(r: Run, trace: seq<Record>)
    requires IsTrace(r, trace) && trace != [] && ActedIn(r, Latest(trace))
    requires Legible(ActedCalls(r, trace), r.w.argOf)
    ensures Latest(trace).reach.Repeated? <==>
            AlikeCalls(ActedCalls(r, trace), r.w.argOf,
                       LeastRepeats(r.pol, Advanced(ReasoningOf(r, Prior(trace)), ContentAt(r.w, Latest(trace)))))
  {
    hide *;
    ActedMeans(r, Latest(trace));
    SeenMeans(r, trace);
    KilledForCause(r, trace);
    ReissuedMeans(r.pol, Advanced(ReasoningOf(r, Prior(trace)), ContentAt(r.w, Latest(trace))), SeenOf(r, trace).sigs,
                  ActedCalls(r, trace), r.w.argOf);
  }

  lemma ActedMeans(r: Run, t: Record)
    ensures ActedIn(r, t) <==> !t.reach.Failed? && Acts(ContentAt(r.w, t), r.pol)
  {
  }

  /**
   A turn that saw its calls through ends the run exactly if with it the same calls have shown the same as
   often in a row as is allowed.
  */
  lemma {:induction false} StalledIff(r: Run, trace: seq<Record>)
    requires IsTrace(r, trace) && trace != [] && ActedIn(r, Latest(trace))
    requires (Latest(trace).reach.Stalled? || Latest(trace).reach.Whole?) && LegibleShown(ObservedCalls(r, trace), r.w)
    ensures Latest(trace).reach.Stalled? <==> AlikeShown(ObservedCalls(r, trace), r.w, LeastEchoes(r.pol))
  {
    hide *;
    ActedMeans(r, Latest(trace));
    SeenMeans(r, trace);
    KilledForCause(r, trace);
    EchoesMeans(r.pol, SeenOf(r, trace).observations, ObservedCalls(r, trace), r.w);
  }

  // ---- exploring ---------------------------------------------------------------------------------------------

  /** The turn only lists directories and searches. */
  predicate OnlyLooks(cs: seq<Call>) {
    cs != [] && forall k :: 0 <= k < |cs| ==> cs[k].name == "list_dir" || cs[k].name == "search"
  }

  /**
   The burst holds the targets of the last turns that acted, which only looked around; the turn before
   them did more.
  */
  predicate BurstOf(burst: seq<Spiral.Turn>, turns: seq<seq<Call>>, targetOf: Call -> string) {
    var from := |turns| - |burst|;
    && |burst| <= |turns|
    && (forall k :: from <= k < |turns| ==> OnlyLooks(turns[k]) && TargetsAre(burst[k - from], turns[k], targetOf))
    && (from > 0 ==> !OnlyLooks(turns[from - 1]))
  }

  predicate TargetsAre(targets: Spiral.Turn, cs: seq<Call>, targetOf: Call -> string) {
    |targets| == |cs| && forall k :: 0 <= k < |cs| ==> targets[k] == targetOf(cs[k])
  }

  lemma LooksMeans(cs: seq<Call>, targetOf: Call -> string)
    ensures AllDiscovery(cs) <==> OnlyLooks(cs)
    ensures TargetsAre(TargetsOf(cs, targetOf), cs, targetOf)
  {
  }

  /** Unless its last turn was cut as a repetition, a run's burst is that of its turns. */
  lemma {:induction false} BurstMeans(r: Run, trace: seq<Record>)
    requires IsTrace(r, trace) && (trace != [] ==> !Latest(trace).reach.Repeated?)
    ensures BurstOf(SeenOf(r, trace).burst, ActedCalls(r, trace), r.w.targetOf)
    decreases |trace|
  {
    hide *;
    if trace == [] {
      NothingSeen(r);
    } else {
      TraceMeans(r, trace);
      PriorGoesOn(r, trace);
      BurstMeans(r, Prior(trace));
      LatestSeen(r, trace);
      OneMoreBurst(SeenOf(r, Prior(trace)).burst, ActedCalls(r, Prior(trace)), ToolCalls(ContentAt(r.w, Latest(trace))),
                   r.w.targetOf);
    }
  }

  lemma OneMoreBurst(burst: seq<Spiral.Turn>, turns: seq<seq<Call>>, cs: seq<Call>, targetOf: Call -> string)
    requires BurstOf(burst, turns, targetOf)
    ensures AllDiscovery(cs) ==> BurstOf(burst + [TargetsOf(cs, targetOf)], turns + [cs], targetOf)
    ensures !AllDiscovery(cs) ==> BurstOf([], turns + [cs], targetOf)
  {
    LooksMeans(cs, targetOf);
    hide AllDiscovery, OnlyLooks, TargetsAre, TargetsOf;
    if AllDiscovery(cs) {
      var from, next, all := |turns| - |burst|, burst + [TargetsOf(cs, targetOf)], turns + [cs];
      forall k | from <= k < |all|
        ensures OnlyLooks(all[k]) && TargetsAre(next[k - from], all[k], targetOf)
      {
        assert k < |turns| ==> all[k] == turns[k] && next[k - from] == burst[k - from];
      }
      assert from > 0 ==> all[from - 1] == turns[from - 1];
    }
  }

  lemma {:induction false} PriorGoesOn(r: Run, trace: seq<Record>)
    requires IsTrace(r, trace) && trace != []
    ensures Prior(trace) != [] ==> Latest(Prior(trace)).reach.Whole?
  {
    hide IsTrace, Follows;
    TraceMeans(r, trace);
    StartMeans(r, Prior(trace), Latest(trace));
  }

  /**
   A turn is cut as endless exploration exactly if it only looked, and the burst of such turns has used
   up its bounds.
  */
  lemma {:induction false} SpiralledIff(r: Run, trace: seq<Record>)
    requires IsTrace(r, trace) && trace != [] && ActedIn(r, Latest(trace)) && !Latest(trace).reach.Repeated?
    ensures var burst := SeenOf(r, trace).burst;
            && BurstOf(burst, ActedCalls(r, trace), r.w.targetOf)
            && (Latest(trace).reach.Spiralled? <==>
                OnlyLooks(ToolCalls(ContentAt(r.w, Latest(trace))))
                && Spiral.Spent(burst, r.pol.frontierCap, r.pol.window, r.pol.wanderMultiple))
  {
    hide *;
    ActedMeans(r, Latest(trace));
    KilledForCause(r, trace);
    BurstMeans(r, trace);
    WanderedMeans(r.pol, ToolCalls(ContentAt(r.w, Latest(trace))), SeenOf(r, trace).burst);
  }

  lemma WanderedMeans(pol: LoopPolicy, cs: seq<Call>, burst: seq<Spiral.Turn>)
    ensures Wandered(pol, cs, burst) <==>
            OnlyLooks(cs) && Spiral.Spent(burst, pol.frontierCap, pol.window, pol.wanderMultiple)
  {
    hide AllDiscovery, OnlyLooks, Spiral.Spent;
    LooksMeans(cs, (c: Call) => "");
  }

  /** A turn is cut after a call only if that call ran a command, which failed, and not because of the environment. */
  lemma {:induction false} HaltedMeans(r: Run, trace: seq<Record>)
    requires IsTrace(r, trace) && trace != [] && ActedIn(r, Latest(trace)) && Latest(trace).reach.Halted?
    ensures var calls, last := ToolCalls(ContentAt(r.w, Latest(trace))), Latest(trace).reach.last;
            && last < |calls| && calls[last].name == "run"
            && !Tracker.IsNoise(Runs.Observe(r.w.tools.answer(|trace|, last).raw, r.w.tools.isAssertion))
            && Tracker.Stagnated(SeenOf(r, trace).history, r.pol.maxStagnant)
  {
    hide *;
    ActedMeans(r, Latest(trace));
    KilledForCause(r, trace);
    TraceMeans(r, trace);
    FollowsMeans(r, Prior(trace), Latest(trace));
    HaltMeans(r.w, r.pol, |trace|, ContentAt(r.w, Latest(trace)),
              Advanced(ReasoningOf(r, Prior(trace)), ContentAt(r.w, Latest(trace))), SeenOf(r, Prior(trace)),
              Latest(trace).reach);
  }

  lemma {:induction false} HaltMeans(w: World, pol: LoopPolicy, i: nat, content: seq<Part>, advanced: bool,
          before: Seen, reach: Reach)
    requires Decided(w, pol, i, content, advanced, before, reach) && reach.Halted?
    ensures var calls := ToolCalls(content);
            && reach.last < |calls| && calls[reach.last].name == "run"
            && !Tracker.IsNoise(Runs.Observe(w.tools.answer(i, reach.last).raw, w.tools.isAssertion))
  {
    hide SeenNext, Reissued, Wandered, Echoes, ToolCalls, ActEvents, Tracker.Stagnated, Tracker.IsNoise, Runs.Observe;
  }
}
