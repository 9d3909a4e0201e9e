/**
 The no-progress detectors that watch results rather than actions.  The counters are kept step by
 step; `Valid` says what they mean for the whole history.
*/
module Tracker {
  import opened Runs

  datatype Event = Ran(out: RunOutput) | Mutated

  /** An environment fault that failed a run carries no signal. */
  predicate IsNoise(o: RunOutput) {
    o.exit.Failed? && o.infra != ""
  }

  function WithoutNoise(h: seq<Event>): seq<Event> {
    if h == [] then []
    else
      var e := h[|h| - 1];
      if e.Ran? && IsNoise(e.out) then WithoutNoise(h[..|h| - 1]) else WithoutNoise(h[..|h| - 1]) + [e]
  }

  predicate EditsFile(verb: string) {
    verb == "edit_file"
  }

  predicate MutatesFile(verb: string) {
    verb == "write_file" || verb == "edit_file"
  }

  /** The runs of a history, in order. */
  function RunsOf(h: seq<Event>): seq<RunOutput> {
    if h == [] then []
    else RunsOf(h[..|h| - 1]) + if h[|h| - 1].Ran? then [h[|h| - 1].out] else []
  }

  /** The last k runs all failed, and look the same. */
  predicate SameFailures(runs: seq<RunOutput>, k: nat) {
    && k <= |runs|
    && forall i :: |runs| - k <= i < |runs| ==>
         runs[i].exit.Failed? && runs[i].fingerprint == runs[|runs| - 1].fingerprint
  }

  /** The last k events all are passing runs that look the same; a mutation in between ends the series. */
  predicate SamePasses(h: seq<Event>, k: nat) {
    && k <= |h|
    && forall i :: |h| - k <= i < |h| ==>
         h[i].Ran? && h[i].out.exit.Passed? && h[|h| - 1].Ran? && h[i].out.fingerprint == h[|h| - 1].out.fingerprint
  }

  /** k is the length of the longest suffix with property SameFailures. */
  predicate LongestFailures(runs: seq<RunOutput>, k: nat) {
    SameFailures(runs, k) && !SameFailures(runs, k + 1)
  }

  predicate LongestPasses(h: seq<Event>, k: nat) {
    SamePasses(h, k) && !SamePasses(h, k + 1)
  }

  /** The longest suffix is unique, and every shorter suffix has the property too. */
  lemma LongestIsMaximal(runs: seq<RunOutput>, k: nat, j: nat)
    requires LongestFailures(runs, k)
    ensures SameFailures(runs, j) <==> j <= k
  {
  }

  /** The last k strings are equal, and not empty. */
  predicate SameStrings(s: seq<string>, k: nat) {
    && k <= |s|
    && forall i :: |s| - k <= i < |s| ==> s[i] == s[|s| - 1] && s[i] != ""
  }

  predicate LongestStrings(s: seq<string>, k: nat) {
    SameStrings(s, k) && !SameStrings(s, k + 1)
  }

  // ---- one more event --------------------------------------------------------------------------

  lemma OneMoreFailure(runs: seq<RunOutput>, k: nat, o: RunOutput)
    requires LongestFailures(runs, k)
    ensures !o.exit.Failed? ==> LongestFailures(runs + [o], 0)
    ensures o.exit.Failed? && k > 0 && runs[|runs| - 1].fingerprint == o.fingerprint ==>
              LongestFailures(runs + [o], k + 1)
    ensures o.exit.Failed? && (k == 0 || runs[|runs| - 1].fingerprint != o.fingerprint) ==>
              LongestFailures(runs + [o], 1)
  {
    var r := runs + [o];
    var n := |runs|;
    assert r[n] == o;
    if o.exit.Failed? {
      if k > 0 && runs[n - 1].fingerprint == o.fingerprint {
        assert forall i :: n - k <= i < n ==> r[i] == runs[i];
        if k + 2 <= n + 1 {
          assert r[n - k - 1] == runs[n - k - 1];
        }
      } else if n > 0 {
        assert r[n - 1] == runs[n - 1];
        assert SameFailures(runs, 1) ==> k > 0;
      }
    }
  }

  lemma OneMorePass(h: seq<Event>, k: nat, e: Event)
    requires LongestPasses(h, k)
    ensures !(e.Ran? && e.out.exit.Passed?) ==> LongestPasses(h + [e], 0)
    ensures e.Ran? && e.out.exit.Passed? && k > 0 && h[|h| - 1].out.fingerprint == e.out.fingerprint ==>
              LongestPasses(h + [e], k + 1)
    ensures e.Ran? && e.out.exit.Passed? && (k == 0 || h[|h| - 1].out.fingerprint != e.out.fingerprint) ==>
              LongestPasses(h + [e], 1)
  {
    var r := h + [e];
    var n := |h|;
    assert r[n] == e;
    if e.Ran? && e.out.exit.Passed? {
      if k > 0 && h[n - 1].out.fingerprint == e.out.fingerprint {
        assert forall i :: n - k <= i < n ==> r[i] == h[i];
        if k + 2 <= n + 1 {
          assert r[n - k - 1] == h[n - k - 1];
        }
      } else if n > 0 {
        assert r[n - 1] == h[n - 1];
        assert SamePasses(h, 1) ==> k > 0;
      }
    }
  }

  lemma OneMoreString(s: seq<string>, k: nat, x: string)
    requires LongestStrings(s, k)
    ensures x == "" ==> LongestStrings(s + [x], 0)
    ensures x != "" && k > 0 && s[|s| - 1] == x ==> LongestStrings(s + [x], k + 1)
    ensures x != "" && (k == 0 || s[|s| - 1] != x) ==> LongestStrings(s + [x], 1)
  {
    var r := s + [x];
    var n := |s|;
    assert r[n] == x;
    if x != "" {
      if k > 0 && s[n - 1] == x {
        assert forall i :: n - k <= i < n ==> r[i] == s[i];
        if k + 2 <= n + 1 {
          assert r[n - k - 1] == s[n - k - 1];
        }
      } else if n > 0 {
        assert r[n - 1] == s[n - 1];
        assert SameStrings(s, 1) ==> k > 0;
      }
    }
  }

  lemma {:induction false} HistorySnoc(h: seq<Event>, e: Event)
    ensures WithoutNoise(h + [e]) == WithoutNoise(h) + if e.Ran? && IsNoise(e.out) then [] else [e]
    ensures RunsOf(h + [e]) == RunsOf(h) + if e.Ran? then [e.out] else []
  {
    assert (h + [e])[..|h|] == h;
  }

  /** The most recent run failed, and not because of the environment. */
  predicate LastFailed(h: seq<Event>) {
    if h == [] then false
    else if h[|h| - 1].Ran? then h[|h| - 1].out.exit.Failed? && !IsNoise(h[|h| - 1].out)
    else LastFailed(h[..|h| - 1])
  }

  lemma {:induction false} LastFailedAfter(h: seq<Event>, e: Event)
    ensures LastFailed(h + [e]) == if e.Ran? then e.out.exit.Failed? && !IsNoise(e.out) else LastFailed(h)
  {
    assert (h + [e])[..|h|] == h;
  }

  // ---- what the counters mean --------------------------------------------------------------------

  /** k is the length of the longest suffix of equal failures of h, and fp is how they look. */
  predicate CountsFailures(h: seq<Event>, k: nat, fp: string) {
    var runs := RunsOf(WithoutNoise(h));
    LongestFailures(runs, k) && fp == if k > 0 then runs[|runs| - 1].fingerprint else ""
  }

  /** k is the number of equal passes at the end of h since the last mutation, and fp is how they look. */
  predicate CountsPasses(h: seq<Event>, k: nat, fp: string) {
    var c := WithoutNoise(h);
    LongestPasses(c, k) && (k > 0 ==> fp == c[|c| - 1].out.fingerprint)
  }

  predicate CountsStrings(s: seq<string>, k: nat, x: string) {
    LongestStrings(s, k) && x == if k > 0 then s[|s| - 1] else ""
  }

  /** The equal failures at the end of a history reach the limit. */
  ghost predicate Stagnated(h: seq<Event>, limit: int) {
    exists k: nat :: k >= limit && LongestFailures(RunsOf(WithoutNoise(h)), k)
  }

  lemma CountedFailures(h: seq<Event>, k: nat, fp: string, limit: int)
    requires CountsFailures(h, k, fp)
    ensures Stagnated(h, limit) <==> k >= limit
  {
    hide RunsOf, WithoutNoise;
    var runs := RunsOf(WithoutNoise(h));
    forall j: nat | LongestFailures(runs, j)
      ensures j == k
    {
      LongestIsMaximal(runs, k, j);
      LongestIsMaximal(runs, j, k);
    }
  }

  /** A series of at least this many equal strings ends s. */
  ghost predicate EndsInSeries(s: seq<string>, least: int) {
    exists k: nat :: k >= least && LongestStrings(s, k)
  }

  lemma SeriesIsMaximal(s: seq<string>, k: nat, j: nat)
    requires LongestStrings(s, k)
    ensures SameStrings(s, j) <==> j <= k
  {
  }

  /** That is, its last strings are equal, as many as that. */
  lemma SeriesIff(s: seq<string>, least: nat)
    ensures EndsInSeries(s, least) <==> SameStrings(s, least)
  {
    if SameStrings(s, least) {
      var k := LongestFrom(s, least);
    } else {
      forall k: nat | k >= least && LongestStrings(s, k) ensures false {
        SeriesIsMaximal(s, k, least);
      }
    }
  }

  lemma {:induction false} LongestFrom(s: seq<string>, j: nat) returns (k: nat)
    requires SameStrings(s, j)
    ensures k >= j && LongestStrings(s, k)
    decreases |s| - j
  {
    if SameStrings(s, j + 1) {
      k := LongestFrom(s, j + 1);
    } else {
      k := j;
    }
  }

  lemma CountedStrings(s: seq<string>, k: nat, x: string, least: int)
    requires CountsStrings(s, k, x)
    ensures EndsInSeries(s, least) <==> k >= least
  {
    forall j: nat | LongestStrings(s, j)
      ensures j == k
    {
      SeriesIsMaximal(s, k, j);
      SeriesIsMaximal(s, j, k);
    }
  }

  lemma FailuresAfterRun(h: seq<Event>, k: nat, fp: string, o: RunOutput)
    requires CountsFailures(h, k, fp)
    ensures IsNoise(o) ==> CountsFailures(h + [Ran(o)], k, fp)
    ensures !IsNoise(o) && !o.exit.Failed? ==> CountsFailures(h + [Ran(o)], 0, "")
    ensures !IsNoise(o) && o.exit.Failed? ==>
              if o.fingerprint == fp then CountsFailures(h + [Ran(o)], k + 1, fp)
                else CountsFailures(h + [Ran(o)], 1, o.fingerprint)
  {
    HistorySnoc(h, Ran(o));
    HistorySnoc(WithoutNoise(h), Ran(o));
    hide WithoutNoise, RunsOf;
    assert WithoutNoise(h) + [] == WithoutNoise(h);
    OneMoreFailure(RunsOf(WithoutNoise(h)), k, o);
    hide LongestFailures;
  }

  lemma FailuresAfterMutation(h: seq<Event>, k: nat, fp: string)
    requires CountsFailures(h, k, fp)
    ensures CountsFailures(h + [Mutated], k, fp)
  {
    HistorySnoc(h, Mutated);
    HistorySnoc(WithoutNoise(h), Mutated);
    assert RunsOf(WithoutNoise(h)) + [] == RunsOf(WithoutNoise(h));
  }

  lemma PassesAfterRun(h: seq<Event>, k: nat, fp: string, o: RunOutput)
    requires CountsPasses(h, k, fp)
    ensures IsNoise(o) ==> CountsPasses(h + [Ran(o)], k, fp)
    ensures !IsNoise(o) && !o.exit.Passed? ==> CountsPasses(h + [Ran(o)], 0, "")
    ensures o.exit.Passed? ==>
              if o.fingerprint == fp then CountsPasses(h + [Ran(o)], k + 1, fp)
                else CountsPasses(h + [Ran(o)], 1, o.fingerprint)
  {
    HistorySnoc(h, Ran(o));
    hide WithoutNoise;
    assert WithoutNoise(h) + [] == WithoutNoise(h);
    OneMorePass(WithoutNoise(h), k, Ran(o));
    hide LongestPasses;
  }

  lemma PassesAfterMutation(h: seq<Event>, k: nat, fp: string)
    requires CountsPasses(h, k, fp)
    ensures CountsPasses(h + [Mutated], 0, fp)
  {
    HistorySnoc(h, Mutated);
    OneMorePass(WithoutNoise(h), k, Mutated);
  }

  lemma StringsAfter(s: seq<string>, k: nat, x: string, y: string)
    requires CountsStrings(s, k, x)
    ensures if y == "" then CountsStrings(s + [y], 0, "")
            else if y == x then CountsStrings(s + [y], k + 1, y) else CountsStrings(s + [y], 1, y)
  {
    OneMoreString(s, k, y);
  }

  // ---- the tracker -----------------------------------------------------------------------------

  class TurnTracker {
    const maxStagnant: int
    const maxReasoningRepeats: int
    const greenRepeatThreshold: int

    var lastRunFP: string
    var stagnant: nat
    var lastRunFailed: bool
    var lastRunPassed: bool
    var failRuns: nat
    var edits: nat
    var editsSinceGreen: nat
    var lastEditIter: int
    var lastToolObsFP: string
    var toolObsRepeat: nat
    var lastGreenFP: string
    var greenRepeat: nat
    var greenNudged: bool

    ghost var history: seq<Event>         // every run and mutation so far
    ghost var observations: seq<string>   // every fully observed turn so far

    ghost predicate Valid()
      reads this
    {
      && CountsFailures(history, stagnant, lastRunFP)
      && CountsPasses(history, greenRepeat, lastGreenFP)
      && CountsStrings(observations, toolObsRepeat, lastToolObsFP)
      && lastRunFailed == LastFailed(history)
    }

    constructor (maxStagnant: int, maxReasoningRepeats: int, greenRepeatThreshold: int)
      ensures Valid() && history == [] && observations == [] && !lastRunFailed
      ensures this.maxStagnant == maxStagnant && this.maxReasoningRepeats == maxReasoningRepeats
      ensures this.greenRepeatThreshold == greenRepeatThreshold && !greenNudged && !lastRunPassed
      ensures failRuns == 0 && edits == 0 && editsSinceGreen == 0 && lastEditIter == 0
    {
      this.maxStagnant, this.maxReasoningRepeats := maxStagnant, maxReasoningRepeats;
      this.greenRepeatThreshold := greenRepeatThreshold;
      lastRunFP, stagnant, lastRunFailed, lastRunPassed := "", 0, false, false;
      failRuns, edits, editsSinceGreen, lastEditIter := 0, 0, 0, 0;
      lastToolObsFP, toolObsRepeat, lastGreenFP, greenRepeat, greenNudged := "", 0, "", 0, false;
      history, observations := [], [];
    }

    /** Takes in one run; kill exactly when it counts and the failures at the end reach the limit. */
    method ObserveRun(o: RunOutput) returns (kill: bool, count: nat)
      requires Valid()
      modifies this
      ensures Valid() && history == old(history) + [Ran(o)] && observations == old(observations)
      ensures lastRunFailed == (o.exit.Failed? && !IsNoise(o)) && lastRunPassed == o.exit.Passed?
      ensures count == stagnant
      ensures kill <==> !IsNoise(o) && stagnant >= maxStagnant
      ensures IsNoise(o) ==> stagnant == old(stagnant)
      ensures failRuns == old(failRuns) + if lastRunFailed then 1 else 0
      ensures editsSinceGreen == if lastRunPassed then 0 else old(editsSinceGreen)
      ensures edits == old(edits) && lastEditIter == old(lastEditIter) && greenNudged == old(greenNudged)
    {
      hide *;
      NoiseIs(o);
      ValidMeans();
      LastFailedAfter(history, Ran(o));
      lastRunFailed := o.exit.Failed?;
      lastRunPassed := o.exit.Passed?;
      if lastRunPassed {
        editsSinceGreen := 0;
      }
      if lastRunFailed && o.infra != "" {
        FailuresAfterRun(history, stagnant, lastRunFP, o);
        PassesAfterRun(history, greenRepeat, lastGreenFP, o);
        history := history + [Ran(o)];
        lastRunFailed := false;
        IsValid();
        return false, stagnant;
      }
      CountRun(o);
      history := history + [Ran(o)];
      IsValid();
      return stagnant >= maxStagnant, stagnant;
    }

    /** A run that counts. */
    method CountRun(o: RunOutput)
      requires CountsFailures(history, stagnant, lastRunFP) && CountsPasses(history, greenRepeat, lastGreenFP)
      requires !IsNoise(o) && lastRunFailed == o.exit.Failed? && lastRunPassed == o.exit.Passed?
      modifies this`failRuns, this`stagnant, this`lastRunFP, this`greenRepeat, this`lastGreenFP
      ensures CountsFailures(history + [Ran(o)], stagnant, lastRunFP)
              && CountsPasses(history + [Ran(o)], greenRepeat, lastGreenFP)
      ensures failRuns == old(failRuns) + if lastRunFailed then 1 else 0
    {
      hide *;
      if lastRunFailed {
        failRuns := failRuns + 1;
      }
      CountFailure(o);
      CountPass(o);
    }

    lemma ValidMeans()
      requires Valid()
      ensures CountsFailures(history, stagnant, lastRunFP) && CountsPasses(history, greenRepeat, lastGreenFP)
      ensures CountsStrings(observations, toolObsRepeat, lastToolObsFP) && lastRunFailed == LastFailed(history)
    {
      hide CountsFailures, CountsPasses, CountsStrings;
    }

    lemma IsValid()
      requires CountsFailures(history, stagnant, lastRunFP) && CountsPasses(history, greenRepeat, lastGreenFP)
      requires CountsStrings(observations, toolObsRepeat, lastToolObsFP) && lastRunFailed == LastFailed(history)
      ensures Valid()
    {
      hide CountsFailures, CountsPasses, CountsStrings;
    }

    lemma NoiseIs(o: RunOutput)
      ensures IsNoise(o) <==> o.exit.Failed? && o.infra != ""
    {
    }

    /** The series of equal failures. */
    method CountFailure(o: RunOutput)
      requires CountsFailures(history, stagnant, lastRunFP) && !IsNoise(o) && lastRunFailed == o.exit.Failed?
      modifies this`stagnant, this`lastRunFP
      ensures CountsFailures(history + [Ran(o)], stagnant, lastRunFP)
    {
      FailuresAfterRun(history, stagnant, lastRunFP, o);
      hide CountsFailures;
      if !lastRunFailed {
        stagnant, lastRunFP := 0, "";
      } else if o.fingerprint == lastRunFP {
        stagnant := stagnant + 1;
      } else {
        stagnant, lastRunFP := 1, o.fingerprint;
      }
    }

    /** The series of equal passes. */
    method CountPass(o: RunOutput)
      requires CountsPasses(history, greenRepeat, lastGreenFP) && !IsNoise(o) && lastRunPassed == o.exit.Passed?
      modifies this`greenRepeat, this`lastGreenFP
      ensures CountsPasses(history + [Ran(o)], greenRepeat, lastGreenFP)
    {
      PassesAfterRun(history, greenRepeat, lastGreenFP, o);
      hide CountsPasses;
      if lastRunPassed {
        if o.fingerprint == lastGreenFP {
          greenRepeat := greenRepeat + 1;
        } else {
          greenRepeat, lastGreenFP := 1, o.fingerprint;
        }
      } else {
        greenRepeat, lastGreenFP := 0, "";
      }
    }

    /** Takes in a dispatched action; a file mutation ends the series of identical passes. */
    method ObserveAction(i: int, verb: string) returns (mutated: bool)
      requires Valid()
      modifies this
      ensures Valid() && mutated == MutatesFile(verb)
      ensures mutated <==> verb == "write_file" || verb == "edit_file"
      ensures history == (if mutated then old(history) + [Mutated] else old(history))
              && observations == old(observations)
      ensures stagnant == old(stagnant) && failRuns == old(failRuns)
      ensures lastRunFailed == old(lastRunFailed) && lastRunPassed == old(lastRunPassed)
      ensures edits == old(edits) + if verb == "edit_file" then 1 else 0
      ensures editsSinceGreen == old(editsSinceGreen) + if mutated then 1 else 0
      ensures lastEditIter == if mutated then i else old(lastEditIter)
    {
      hide CountsFailures, CountsPasses, CountsStrings;
      if EditsFile(verb) {
        edits := edits + 1;
      }
      if MutatesFile(verb) {
        FailuresAfterMutation(history, stagnant, lastRunFP);
        PassesAfterMutation(history, greenRepeat, lastGreenFP);
        LastFailedAfter(history, Mutated);
        history := history + [Mutated];
        lastEditIter := i;
        editsSinceGreen := editsSinceGreen + 1;
        greenRepeat := 0;
        return true;
      }
      return false;
    }

    /** Takes in a fully observed turn; kill exactly when it has now occurred often enough in a row. */
    method ObserveToolObservation(fp: string) returns (kill: bool, count: nat)
      requires Valid()
      modifies this`lastToolObsFP, this`toolObsRepeat, this`observations
      ensures Valid() && observations == old(observations) + [fp]
      ensures count == toolObsRepeat
      ensures kill <==> fp != "" && toolObsRepeat >= maxReasoningRepeats
      ensures fp == "" <==> toolObsRepeat == 0
    {
      StringsAfter(observations, toolObsRepeat, lastToolObsFP, fp);
      hide CountsFailures, CountsPasses, CountsStrings;
      observations := observations + [fp];
      if fp == "" {
        lastToolObsFP, toolObsRepeat := "", 0;
        return false, 0;
      }
      if fp == lastToolObsFP {
        toolObsRepeat := toolObsRepeat + 1;
      } else {
        lastToolObsFP, toolObsRepeat := fp, 1;
      }
      return toolObsRepeat >= maxReasoningRepeats, toolObsRepeat;
    }

    /** The hint about a green command that is run over and over: once in a run at most. */
    method GreenRepeatNudge() returns (nudge: bool)
      modifies this`greenNudged
      ensures nudge <==> !old(greenNudged) && greenRepeat >= greenRepeatThreshold
      ensures greenNudged == (old(greenNudged) || nudge)
    {
      if greenNudged {
        return false;
      }
      if greenRepeat >= greenRepeatThreshold {
        greenNudged := true;
        return true;
      }
      return false;
    }
  }
}
