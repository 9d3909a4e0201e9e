/**
 The review gate: a reviewer's findings are validated one by one, those that stand block or are fed
 back for a bounded number of rounds, and every finding ends with a fate.
*/
module Review {
  import opened Texts
  import opened Runs
  import opened Generate
  import opened Spending

  const BLOCK_CONFIDENCE := 8
  const ADVISE_CONFIDENCE := 5
  const REPRO_CAP: nat := 2
  const SOLICIT_CONFIDENCE := 7

  /** exact says that the reviewer spelled the severity "blocker" to the letter. */
  datatype Severity = Blocker(exact: bool) | Remark

  /** Strings are kept trimmed; file is "" when the finding names none. */
  datatype Finding = Finding(
    file: string, quote: string, severity: Severity, confidence: int, reproCmd: string, noReproReason: string)

  datatype Fate = Pending | Repaired | Refuted | Expired | Advised | Noted | Dropped

  datatype Reviewed = Reviewed(finding: Finding, round: nat, fate: Fate, confirmed: bool, reproOut: Option<RunOutput>)

  datatype Status = Unset | Clean | Blocked | Advisory | Unavailable | ParseError | Timeout | Canceled

  predicate IsInfrastructure(s: Status) {
    s.Unavailable? || s.ParseError? || s.Timeout?
  }

  // ---- one finding -----------------------------------------------------------------------------

  datatype FileRead = Content(text: string) | Missing | Unreadable

  /** What the workspace answers while one finding is examined. */
  datatype Examination = Examination(
    file: FileRead, before: Option<string>, run: Option<RunOutput>, fencedChanged: bool, after: Option<string>,
    restores: bool)   // whether the tree before can be restored

  /** The quote stands in the file it names. */
  predicate Grounded(f: Finding, x: Examination) {
    f.quote != "" && (f.file == "" || x.file.Missing? || (x.file.Content? && Contains(x.file.text, f.quote)))
  }

  /** The finding may have its repro command run, as long as the round has budget. */
  predicate WantsRun(f: Finding, x: Examination) {
    Grounded(f, x) && f.severity.Blocker? && f.reproCmd != ""
  }

  predicate LeftDirty(x: Examination) {
    x.before.Some? && (x.after.None? || x.after != x.before || x.fencedChanged)
  }

  /** The repro command ran, and left the workspace as it was. */
  predicate RanClean(x: Examination) {
    x.before.Some? && !LeftDirty(x) && x.run.Some?
  }

  /** The fate of a finding, read off what the workspace answered. */
  function FateOf(f: Finding, x: Examination, budget: nat): Fate {
    var tried := WantsRun(f, x) && budget > 0;
    if !Grounded(f, x) || (tried && LeftDirty(x)) then Dropped
    else if !f.severity.Blocker? then Noted
    else if tried && RanClean(x) then
      if x.run.value.exit.Failed? then Pending else if f.confidence < BLOCK_CONFIDENCE then Refuted else Advised
    else if f.confidence >= BLOCK_CONFIDENCE then Pending
    else if f.confidence >= ADVISE_CONFIDENCE then Advised
    else Noted
  }

  /**
   The ladder: what is not grounded is dropped, and what is not a blocker noted; a repro that ran clean
   confirms by failing, and otherwise refutes below confidence 8 and downgrades from there; without one
   the finding blocks from confidence 8 and is advised from 5.
  */
  lemma Ladder(f: Finding, x: Examination, budget: nat)
    ensures !Grounded(f, x) ==> FateOf(f, x, budget).Dropped?
    ensures Grounded(f, x) && !f.severity.Blocker? ==> FateOf(f, x, budget).Noted?
    ensures Grounded(f, x) && f.severity.Blocker? && f.reproCmd != "" && budget > 0 && x.before.Some? ==>
              if x.after != x.before || x.fencedChanged then FateOf(f, x, budget).Dropped?
              else if x.run.Some? then
                FateOf(f, x, budget) ==
                if x.run.value.exit.Failed? then Pending else if f.confidence < 8 then Refuted else Advised
              else
                FateOf(f, x, budget) ==
                if f.confidence >= 8 then Pending else if f.confidence >= 5 then Advised else Noted
    ensures Grounded(f, x) && f.severity.Blocker? && (f.reproCmd == "" || budget == 0 || x.before.None?) ==>
              FateOf(f, x, budget) ==
              if f.confidence >= 8 then Pending else if f.confidence >= 5 then Advised else Noted
  {
    hide Grounded;
  }

  /** A finding is grounded if its quote is not empty and, if it names a file that can be read, stands in it. */
  lemma GroundedMeans(f: Finding, x: Examination)
    ensures Grounded(f, x) <==>
            && f.quote != ""
            && (f.file == "" || x.file.Missing?
                 || (x.file.Content? && exists k: nat :: OccursAt(x.file.text, f.quote, k)))
  {
    if x.file.Content? {
      ContainsIff(x.file.text, f.quote);
    }
    hide Contains;
  }

  /** rf is what the ladder makes of f. */
  predicate Judged(rf: Reviewed, f: Finding, x: Examination, budget: nat) {
    var ran := WantsRun(f, x) && budget > 0 && RanClean(x);
    && rf.finding == f && rf.fate == FateOf(f, x, budget)
    && rf.confirmed == (ran && x.run.value.exit.Failed?)
    && rf.reproOut == if ran then x.run else None
  }

  /**
   Runs the finding's command; settled says that the execution decided.  left is the tracked tree
   afterwards: the one before, unless the command changed it and the restore failed.
  */
  method Escalate(rf0: Reviewed, x: Examination) returns (rf: Reviewed, settled: bool, left: Option<string>)
    requires rf0.fate.Pending? && !rf0.confirmed && rf0.reproOut.None?
    ensures x.before.Some? ==> left == if x.after == x.before || x.restores then x.before else x.after
    ensures x.before.None? ==> left == x.before && rf == rf0 && !settled
    ensures settled <==> LeftDirty(x) || RanClean(x)
    ensures rf == rf0.(
                    fate := if LeftDirty(x) then Dropped
                            else if !RanClean(x) || x.run.value.exit.Failed? then Pending
                            else if rf0.finding.confidence < BLOCK_CONFIDENCE then Refuted else Advised,
                    confirmed := RanClean(x) && x.run.value.exit.Failed?,
                    reproOut := if RanClean(x) then x.run else None)
  {
    rf, left := rf0, x.before;
    if x.before.None? {
      return rf, false, left;
    }
    left := x.after;
    if x.after.None? || x.after != x.before || x.fencedChanged {
      if x.after != x.before {
        left := if x.restores then x.before else x.after;
      }
      return rf.(fate := Dropped), true, left;
    }
    if x.run.None? {
      return rf, false, left;
    }
    rf := rf.(reproOut := x.run);
    if x.run.value.exit.Failed? {
      return rf.(confirmed := true), true, left;
    }
    if rf.finding.confidence < BLOCK_CONFIDENCE {
      return rf.(fate := Refuted), true, left;
    }
    return rf.(fate := Advised), true, left;
  }

  method Classify(f: Finding, x: Examination, budget0: nat) returns (rf: Reviewed, budget: nat)
    ensures Judged(rf, f, x, budget0) && rf.round == 0
    ensures budget == if WantsRun(f, x) && budget0 > 0 then budget0 - 1 else budget0
  {
    hide Contains;
    rf, budget := Reviewed(f, 0, Pending, false, None), budget0;
    if f.quote == "" {
      return rf.(fate := Dropped), budget;
    }
    if f.file != "" {
      if x.file.Unreadable? {
        return rf.(fate := Dropped), budget;
      }
      if x.file.Content? && !Contains(x.file.text, f.quote) {
        return rf.(fate := Dropped), budget;
      }
    }
    if !f.severity.Blocker? {
      return rf.(fate := Noted), budget;
    }
    if f.reproCmd != "" && budget > 0 {
      budget := budget - 1;
      var settled, left;
      rf, settled, left := Escalate(rf, x);
      if settled {
        return;
      }
    }
    if f.confidence < BLOCK_CONFIDENCE {
      if f.confidence >= ADVISE_CONFIDENCE {
        return rf.(fate := Advised), budget;
      }
      return rf.(fate := Noted), budget;
    }
  }

  // ---- the findings of a run ---------------------------------------------------------------------

  /** The positions of the findings that still block, in order. */
  function OpenIndices(fs: seq<Reviewed>): seq<nat> {
    if fs == [] then []
    else OpenIndices(fs[..|fs| - 1]) + if fs[|fs| - 1].fate.Pending? then [|fs| - 1] else []
  }

  /** A confirmed finding blocks until it is repaired or expires; an unconfirmed one blocks on confidence alone. */
  predicate Sound(f: Reviewed, rounds: nat) {
    && f.round <= rounds
    && (f.confirmed ==> f.fate.Pending? || f.fate.Repaired? || f.fate.Expired?)
    && (f.fate.Pending? ==> f.finding.severity.Blocker? && f.round == rounds)
    && (f.fate.Pending? && !f.confirmed ==> f.finding.confidence >= BLOCK_CONFIDENCE && f.reproOut.None?)
  }

  predicate AllSound(fs: seq<Reviewed>, rounds: nat) {
    forall i :: 0 <= i < |fs| ==> Sound(fs[i], rounds)
  }

  /** fs with the given fate for everything that was open. */
  function Settled(fs: seq<Reviewed>, fate: Fate): (out: seq<Reviewed>)
    ensures |out| == |fs|
    ensures forall i :: 0 <= i < |fs| ==> out[i] == if fs[i].fate.Pending? then fs[i].(fate := fate) else fs[i]
  {
    seq(|fs|, i requires 0 <= i < |fs| => if fs[i].fate.Pending? then fs[i].(fate := fate) else fs[i])
  }

  lemma {:induction false} OpenIndicesMeans(fs: seq<Reviewed>)
    ensures forall k :: 0 <= k < |OpenIndices(fs)| ==> OpenIndices(fs)[k] < |fs| && fs[OpenIndices(fs)[k]].fate.Pending?
    ensures forall i :: 0 <= i < |fs| && fs[i].fate.Pending? ==> i in OpenIndices(fs)
    ensures forall j, k :: 0 <= j < k < |OpenIndices(fs)| ==> OpenIndices(fs)[j] < OpenIndices(fs)[k]
  {
    if fs != [] {
      OpenIndicesMeans(fs[..|fs| - 1]);
    }
  }

  lemma {:induction false} NothingOpen(fs: seq<Reviewed>)
    requires forall i :: 0 <= i < |fs| ==> !fs[i].fate.Pending?
    ensures OpenIndices(fs) == []
  {
    if fs != [] {
      NothingOpen(fs[..|fs| - 1]);
    }
  }

  lemma {:induction false} OpenIndicesSnoc(fs: seq<Reviewed>, f: Reviewed)
    ensures OpenIndices(fs + [f]) == OpenIndices(fs) + if f.fate.Pending? then [|fs|] else []
  {
    assert (fs + [f])[..|fs|] == fs;
  }

  function OfFate(fs: seq<Reviewed>, pending: bool): seq<Reviewed> {
    if fs == [] then []
    else
      OfFate(fs[..|fs| - 1], pending) +
      if (pending && fs[|fs| - 1].fate.Pending?) || (!pending && fs[|fs| - 1].fate.Advised?) then [fs[|fs| - 1]] else []
  }

  function CountBlockers(fs: seq<Reviewed>, confirmed: bool): nat {
    if fs == [] then 0
    else
      CountBlockers(fs[..|fs| - 1], confirmed) +
      if fs[|fs| - 1].finding.severity == Blocker(true) && fs[|fs| - 1].confirmed == confirmed then 1 else 0
  }

  /** The positions of the blockers, spelled so to the letter, that are confirmed or not. */
  function BlockersAt(fs: seq<Reviewed>, confirmed: bool): set<nat> {
    set i: nat | i < |fs| && fs[i].finding.severity == Blocker(true) && fs[i].confirmed == confirmed
  }

  /** The count is that of the positions. */
  lemma {:induction false} CountMeans(fs: seq<Reviewed>, confirmed: bool)
    ensures CountBlockers(fs, confirmed) == |BlockersAt(fs, confirmed)|
  {
    if fs != [] {
      var n := |fs| - 1;
      CountMeans(fs[..n], confirmed);
      assert BlockersAt(fs, confirmed) == if fs[n].finding.severity == Blocker(true) && fs[n].confirmed == confirmed
        then BlockersAt(fs[..n], confirmed) + {n} else BlockersAt(fs[..n], confirmed);
    }
  }

  /** How many repro commands finding i may still run. */
  function BudgetAt(fs: seq<Finding>, look: nat -> Examination, i: nat): nat
    requires i <= |fs|
  {
    if i == 0 then REPRO_CAP
    else
      var b := BudgetAt(fs, look, i - 1);
      if WantsRun(fs[i - 1], look(i - 1)) && b > 0 then b - 1 else b
  }

  /** The new findings of a round are the verdict's, each judged in turn. */
  predicate JudgedAll(news: seq<Reviewed>, fs: seq<Finding>, look: nat -> Examination, round: nat) {
    && |news| <= |fs|
    && forall i :: 0 <= i < |news| ==> news[i].round == round && Judged(news[i], fs[i], look(i), BudgetAt(fs, look, i))
  }

  predicate SamePlace(f: Finding, g: Finding) {
    f.file == g.file && f.quote == g.quote
  }

  /** A new finding that its command confirmed stands where an earlier round had confirmed one. */
  predicate RepeatsAt(earlier: seq<Reviewed>, news: seq<Reviewed>, i: nat, j: nat) {
    && i < |news| && j < |earlier| && news[i].confirmed && earlier[j].confirmed
    && SamePlace(earlier[j].finding, news[i].finding)
  }

  ghost predicate Repeats(earlier: seq<Reviewed>, news: seq<Reviewed>) {
    exists i, j :: RepeatsAt(earlier, news, i, j)
  }

  /** The first new finding that does, and the first earlier one that it repeats. */
  ghost predicate FirstRepeat(earlier: seq<Reviewed>, news: seq<Reviewed>, i: nat, j: nat) {
    && RepeatsAt(earlier, news, i, j) && (forall k: nat :: k < j ==> !RepeatsAt(earlier, news, i, k))
    && forall h: nat, k: nat :: h < i ==> !RepeatsAt(earlier, news, h, k)
  }

  /** One of the findings blocks. */
  predicate Blocks(news: seq<Reviewed>) {
    exists i :: 0 <= i < |news| && news[i].fate.Pending?
  }

  /** One of the findings is worth telling the solver. */
  predicate Stands(news: seq<Reviewed>) {
    exists i :: 0 <= i < |news| && (news[i].fate.Pending? || news[i].fate.Advised?)
  }

  /** Which ruling is due on the findings of a round: may says that the run may go on and rounds are left. */
  ghost predicate Due(earlier: seq<Reviewed>, news: seq<Reviewed>, may: bool, rounds: nat, required: bool,
          status: Status, o: Ruling)
  {
    && (o.Feedback? <==> !Repeats(earlier, news) && may && Stands(news))
    && (o.Block? && o.why.Recurred? <==> Repeats(earlier, news))
    && (o.Block? && o.why.Recurred? ==> o.why.round == rounds)
    && (o.Block? && o.why.BlockersRemain? <==> !Repeats(earlier, news) && !may && Blocks(news))
    && (o.Block? && o.why.BlockersRemain? ==> o.why.rounds == rounds)
    && (o.Block? && o.why.RequiredButUnavailable? <==>
        !Repeats(earlier, news) && (may ==> !Stands(news)) && !Blocks(news) && required && IsInfrastructure(status))
    && (o.Block? && o.why.RequiredButUnavailable? ==> o.why.status == status)
    && (o.Block? ==> !o.why.SkippedButRequired?)
  }

  lemma SamePlaceIs(f: Finding, g: Finding)
    ensures SamePlace(f, g) <==> f.file == g.file && f.quote == g.quote
  {
  }

  lemma StandsIf(news: seq<Reviewed>)
    ensures Blocks(news) ==> Stands(news)
  {
  }

  lemma NotInfrastructure()
    ensures !IsInfrastructure(Clean) && !IsInfrastructure(Advisory) && !IsInfrastructure(Status.Blocked)
  {
  }

  lemma DueIs(earlier: seq<Reviewed>, news: seq<Reviewed>, may: bool, rounds: nat, required: bool, status: Status,
          o: Ruling)
    requires Blocks(news) ==> Stands(news)
    requires if Repeats(earlier, news) then o == Block(Recurred(rounds))
             else if may && Stands(news) then o.Feedback?
             else if Blocks(news) then o == Block(BlockersRemain(rounds))
             else if required && IsInfrastructure(status) then o == Block(RequiredButUnavailable(status)) else o == Pass
    ensures Due(earlier, news, may, rounds, required, status, o)
  {
    hide Repeats, Blocks, Stands, IsInfrastructure;
  }

  /**
   The status that a decided round leaves; one that tells of an infrastructure fault stays unless the
   round blocks.
  */
  function StatusAfter(o: Ruling, news: seq<Reviewed>, before: Status): Status {
    if o.Block? && (o.why.Recurred? || o.why.BlockersRemain?) then Status.Blocked
    else if IsInfrastructure(before) then before
    else if Blocks(news) then Status.Blocked
    else if Stands(news) then Advisory
    else Clean
  }

  lemma {:induction false} OfFateMeans(news: seq<Reviewed>)
    ensures OfFate(news, true) != [] <==> Blocks(news)
    ensures OfFate(news, true) != [] || OfFate(news, false) != [] <==> Stands(news)
    decreases |news|
  {
    if news != [] {
      var n := |news| - 1;
      OfFateMeans(news[..n]);
      assert forall i :: 0 <= i < n ==> news[i] == news[..n][i];
      assert Blocks(news) <==> Blocks(news[..n]) || news[n].fate.Pending?;
      assert Stands(news) <==> Stands(news[..n]) || news[n].fate.Pending? || news[n].fate.Advised?;
    }
  }

  lemma StatusIs(o: Ruling, news: seq<Reviewed>, before: Status)
    ensures StatusAfter(o, news, before) ==
            if o.Block? && (o.why.Recurred? || o.why.BlockersRemain?) then Status.Blocked
            else if IsInfrastructure(before) then before
            else if Blocks(news) then Status.Blocked else if Stands(news) then Advisory else Clean
  {
    hide Blocks, Stands, IsInfrastructure;
  }

  function ReproRuns(fs: seq<Reviewed>): nat {
    if fs == [] then 0 else ReproRuns(fs[..|fs| - 1]) + if fs[|fs| - 1].reproOut.Some? then 1 else 0
  }

  /** At most REPRO_CAP repro commands run in a round. */
  lemma {:induction false} ReproRunsBounded(news: seq<Reviewed>, fs: seq<Finding>, look: nat -> Examination, round: nat)
    requires JudgedAll(news, fs, look, round)
    ensures ReproRuns(news) + BudgetAt(fs, look, |news|) <= 2
  {
    hide WantsRun, RanClean, FateOf, Contains;
    if news != [] {
      ReproRunsBounded(news[..|news| - 1], fs, look, round);
    }
  }

  lemma JudgedIsSound(rf: Reviewed, f: Finding, x: Examination, budget: nat, rounds: nat)
    requires Judged(rf, f, x, budget) && rf.round == rounds
    ensures Sound(rf, rounds)
  {
    hide Contains;
  }

  // ---- the reviewer's answers --------------------------------------------------------------------

  datatype Verdict = Verdict(findings: seq<Finding>, usage: Usage, model: string)

  /** A failed review may still carry a verdict that is paid for. */
  datatype Answer = ReviewFailed(status: Status, paid: Option<Verdict>) | ReviewDone(verdict: Verdict)

  datatype Solicitation =
    | NoSolicitor
    | SolicitFailed(status: Status, usage: Usage)
    | Solicited(merged: seq<Finding>, usage: Usage)

  datatype Diff = DiffFailed(status: Status) | BlankDiff | SomeDiff

  datatype ReviewWorld = ReviewWorld(
    canceled: bool, diff: Diff, answer: Answer, solicit: Solicitation, look: nat -> Examination)

  datatype Why =
    | SkippedButRequired | RequiredButUnavailable(status: Status) | Recurred(round: nat) | BlockersRemain(rounds: nat)

  datatype Ruling = Pass | Feedback(blockers: seq<Reviewed>, advisories: seq<Reviewed>) | Block(why: Why)

  predicate Solicitable(f: Finding) {
    f.severity.Blocker? && f.confidence >= SOLICIT_CONFIDENCE && f.reproCmd == ""
  }

  function FirstMatch(f: Finding, merged: seq<Finding>): Option<Finding> {
    if merged == [] then None
    else if merged[0].file == f.file && merged[0].quote == f.quote then Some(merged[0])
    else FirstMatch(f, merged[1..])
  }

  /** A finding with the repro command or the refusal that the reviewer added to it. */
  function Merge(f: Finding, merged: seq<Finding>): Finding {
    match FirstMatch(f, merged)
    case None => f
    case Some(m) =>
      f.(reproCmd := if m.reproCmd != "" then m.reproCmd else f.reproCmd,
      noReproReason := if m.noReproReason != "" then m.noReproReason else f.noReproReason)
  }

  function MergeAll(fs: seq<Finding>, merged: seq<Finding>): (out: seq<Finding>)
    ensures |out| == |fs|
    ensures forall i :: 0 <= i < |fs| ==> out[i] == Merge(fs[i], merged)
  {
    seq(|fs|, i requires 0 <= i < |fs| => Merge(fs[i], merged))
  }

  predicate FirstAt(f: Finding, merged: seq<Finding>, k: nat) {
    k < |merged| && SamePlace(merged[k], f) && forall j :: 0 <= j < k ==> !SamePlace(merged[j], f)
  }

  /** What a merge takes over: of the first finding for the same file and quote, what it says and nothing else. */
  lemma {:induction false} MergeMeans(f: Finding, merged: seq<Finding>)
    ensures (forall k :: 0 <= k < |merged| ==> !SamePlace(merged[k], f)) ==> Merge(f, merged) == f
    ensures (forall k :: 0 <= k < |merged| ==> !SamePlace(merged[k], f)) || exists k: nat :: FirstAt(f, merged, k)
    ensures forall k: nat :: FirstAt(f, merged, k) ==>
              Merge(f, merged) == f.(reproCmd := if merged[k].reproCmd != "" then merged[k].reproCmd else f.reproCmd,
                                     noReproReason := if merged[k].noReproReason != "" then merged[k].noReproReason
                                                      else f.noReproReason)
  {
    MatchMeans(f, merged);
    hide FirstMatch, SamePlace;
  }

  lemma {:induction false} MatchMeans(f: Finding, merged: seq<Finding>)
    ensures FirstMatch(f, merged).None? <==> forall k :: 0 <= k < |merged| ==> !SamePlace(merged[k], f)
    ensures FirstMatch(f, merged).Some? ==> exists k: nat :: FirstAt(f, merged, k)
    ensures forall k: nat :: FirstAt(f, merged, k) ==>
              FirstMatch(f, merged) == Some(merged[k])
  {
    if merged != [] {
      if SamePlace(merged[0], f) {
        assert FirstAt(f, merged, 0);
      } else {
        MatchMeans(f, merged[1..]);
        assert forall k :: 0 < k < |merged| ==> merged[k] == merged[1..][k - 1];
        if k: nat :| FirstAt(f, merged[1..], k) {
          assert FirstAt(f, merged, k + 1);
        }
      }
    }
  }

  function AddUsage(a: Usage, b: Usage): Usage {
    Usage(a.prompt + b.prompt, a.completion + b.completion, a.total + b.total, a.cached + b.cached,
          a.reasoning + b.reasoning, a.cost + b.cost)
  }

  datatype Report = Report(
    rounds: nat, status: Status, blocked: bool, salvage: bool, skipped: bool, findings: seq<Reviewed>,
    usage: Usage, confirmedBlockers: nat, unconfirmedBlockers: nat)

  /** What the gate carries from one finish of a run to the next. */
  datatype Memory = Memory(
    skip: bool, rounds: nat, status: Status, blocked: bool, salvage: bool, findings: seq<Reviewed>)

  // ---- the gate ------------------------------------------------------------------------------------

  class ReviewState {
    const maxRounds: int
    const required: bool    // a completed review is a condition of success

    var skip: bool
    var rounds: nat
    var status: Status
    var blocked: bool
    var salvage: bool
    var findings: seq<Reviewed>
    var pending: seq<nat>   // positions in findings that block and await a fate
    var usage: Usage

    ghost predicate Valid()
      reads this
    {
      pending == OpenIndices(findings) && AllSound(findings, rounds)
    }

    ghost function Remembered(): Memory
      reads this
    {
      Memory(skip, rounds, status, blocked, salvage, findings)
    }

    /** o is the ruling that is due at a finish when the gate remembers m, and leaves it with m'. */
    ghost predicate Ruled(canContinue: bool, w: ReviewWorld, m: Memory, o: Ruling, m': Memory) {
      var reached, n := Reached(m.skip, w), m.rounds + 1;
      && m'.rounds == (if reached then n else m.rounds) && m'.salvage == m.salvage
      && m'.blocked == (m.blocked || (o.Block? && (o.why.Recurred? || o.why.BlockersRemain?)))
      && (o.Feedback? <==> reached && FeedbackDue(Settled(m.findings, Repaired), w, n, canContinue && n < maxRounds))
      && (!reached ==> m'.findings == m.findings)
      && if m.skip then o == (if required then Block(SkippedButRequired) else Pass) && m'.skip && m'.status == m.status
         else if w.canceled then o == Pass && !m'.skip && m'.status.Canceled?
         else if w.diff.BlankDiff? then
           o == Pass && !m'.skip && m'.status == if IsInfrastructure(m.status) then m.status else Clean
         else if reached && w.answer.ReviewDone? then
           && !m'.skip
           && RoundDone(Settled(m.findings, Repaired),
                        Round(w, n, canContinue && n < maxRounds, required, SolicitStatus(m.status, w)),
                        o, m'.findings, m'.status)
         else
           && m'.skip == (m.findings == []) && (reached ==> m'.findings == Settled(m.findings, Repaired))
           && m'.status == (if w.diff.DiffFailed? then w.diff.status
                            else if w.answer.ReviewFailed? then w.answer.status else m'.status)
           && o == if required && IsInfrastructure(m'.status) then Block(RequiredButUnavailable(m'.status)) else Pass
    }

    constructor (maxRounds: int, required: bool, skip: bool, roundOffset: nat)
      ensures Valid() && fresh(this)
      ensures this.maxRounds == maxRounds && this.required == required && this.skip == skip
      ensures rounds == roundOffset && findings == [] && !blocked && !salvage
      ensures usage == Usage(0, 0, 0, 0, 0, 0.0) && status == if skip then Unavailable else Unset
    {
      this.maxRounds, this.required, this.skip := maxRounds, required, skip;
      rounds, status := roundOffset, if skip then Unavailable else Unset;
      blocked, salvage, findings, pending := false, false, [], [];
      usage := Usage(0, 0, 0, 0, 0, 0.0);
    }

    method ResolvePending(fate: Fate)
      requires Valid() && (fate.Repaired? || fate.Expired?)
      modifies this`findings, this`pending
      ensures Valid() && findings == Settled(old(findings), fate) && pending == []
    {
      OpenIndicesMeans(findings);
      ghost var fs := findings;
      hide OpenIndices, Sound;
      var n := 0;
      while n < |pending|
        invariant n <= |pending| && |findings| == |fs| && pending == old(pending)
        invariant forall i :: 0 <= i < |fs| ==>
                    findings[i] == if fs[i].fate.Pending? && i in pending[..n] then fs[i].(fate := fate) else fs[i]
      {
        var i := pending[n];
        if findings[i].fate.Pending? {
          findings := findings[i := findings[i].(fate := fate)];
        }
        n := n + 1;
      }
      assert pending[..n] == pending;
      assert findings == Settled(fs, fate);
      SettledIsSound(fs, fate, rounds);
      pending := [];
    }

    /** A confirmed blocker of this round that an earlier round already had confirmed. */
    predicate Recurs(idx: nat, j: nat)
      reads this
    {
      && idx < |findings| && j < |findings|
      && findings[idx].confirmed && findings[j].confirmed && findings[j].round < rounds
      && findings[j].finding.file == findings[idx].finding.file
         && findings[j].finding.quote == findings[idx].finding.quote
    }

    method FindRecurringConfirmedBlocker() returns (cur: nat, prev: nat, ok: bool)
      requires Valid()
      ensures ok ==> cur in pending && Recurs(cur, prev) && forall j: nat :: j < prev ==> !Recurs(cur, j)
      ensures ok ==> forall idx: nat, j: nat :: idx in pending && idx < cur ==> !Recurs(idx, j)
      ensures !ok ==> forall idx: nat, j: nat :: idx in pending ==> !Recurs(idx, j)
    {
      OpenIndicesMeans(findings);
      hide OpenIndices, Sound;
      var n := 0;
      while n < |pending|
        invariant n <= |pending|
        invariant forall m: nat, j: nat :: m < n ==> !Recurs(pending[m], j)
      {
        var idx := pending[n];
        var j := 0;
        while j < |findings| && findings[idx].confirmed
          invariant j <= |findings|
          invariant forall i: nat :: i < j ==> !Recurs(idx, i)
        {
          if findings[j].round < rounds && findings[j].confirmed {
            if findings[j].finding.file == findings[idx].finding.file
              && findings[j].finding.quote == findings[idx].finding.quote {
              assert forall m: nat :: m < |pending| && pending[m] < idx ==> m < n;
              return idx, j, true;
            }
          }
          j := j + 1;
        }
        n := n + 1;
      }
      return 0, 0, false;
    }

    /** The terminal record: what is still open expires here. */
    method MakeReport() returns (r: Report)
      requires Valid()
      modifies this`findings, this`pending
      ensures Valid() && findings == Settled(old(findings), Expired) && pending == []
      ensures r.findings == findings && r.blocked == blocked && r.rounds == rounds && r.status == status
      ensures r.usage == usage && r.salvage == salvage && r.skipped == skip
      ensures r.confirmedBlockers == CountBlockers(findings, true)
              && r.unconfirmedBlockers == CountBlockers(findings, false)
      ensures forall i :: 0 <= i < |findings| ==> !findings[i].fate.Pending?
      ensures forall i :: 0 <= i < |findings| && findings[i].confirmed ==>
                findings[i].fate.Repaired? || findings[i].fate.Expired?
    {
      ResolvePending(Expired);
      var confirmed, unconfirmed, i := 0, 0, 0;
      while i < |findings|
        invariant i <= |findings|
        invariant confirmed == CountBlockers(findings[..i], true) && unconfirmed == CountBlockers(findings[..i], false)
      {
        assert findings[..i + 1][..i] == findings[..i];
        if findings[i].finding.severity == Blocker(true) {
          if findings[i].confirmed {
            confirmed := confirmed + 1;
          } else {
            unconfirmed := unconfirmed + 1;
          }
        }
        i := i + 1;
      }
      assert findings[..i] == findings;
      r := Report(rounds, status, blocked, salvage, skip, findings, usage, confirmed, unconfirmed);
    }

    method SetSemanticStatus(s: Status)
      modifies this`status
      ensures status == if IsInfrastructure(old(status)) then old(status) else s
    {
      if IsInfrastructure(status) {
        return;
      }
      status := s;
    }

    method FailOpen(s: Status)
      requires Valid()
      modifies this`status, this`skip
      ensures Valid() && status == s && skip == (old(skip) || findings == [])
    {
      status := s;
      if findings == [] && !skip {
        skip := true;
      }
    }

    /** A review that the caller insists on did not come about. */
    function RequiredBlock(): (r: Ruling)
      reads this
      ensures r.Pass? <==> !(required && IsInfrastructure(status))
      ensures !r.Pass? ==> r == Block(RequiredButUnavailable(status))
    {
      if required && IsInfrastructure(status) then Block(RequiredButUnavailable(status)) else Pass
    }

    /** Takes in the findings of a round. */
    method TakeFindings(fs: seq<Finding>, look: nat -> Examination)
      returns (blockers: seq<Reviewed>, advisories: seq<Reviewed>, ghost news: seq<Reviewed>)
      requires Valid()
      modifies this`findings, this`pending
      ensures Valid() && findings == old(findings) + news
      ensures |news| == |fs| && JudgedAll(news, fs, look, rounds)
      ensures blockers == OfFate(news, true) && advisories == OfFate(news, false)
    {
      ghost var old0 := findings;
      blockers, advisories, news := [], [], [];
      var budget := REPRO_CAP;
      var i := 0;
      assert JudgedAll(news, fs, look, rounds) && budget == BudgetAt(fs, look, 0);
      assert blockers == OfFate(news, true) && advisories == OfFate(news, false);
      hide JudgedAll, Judged, OfFate, Sound, AllSound, OpenIndices, BudgetAt;
      while i < |fs|
        invariant i <= |fs| && |news| == i && budget == BudgetAt(fs, look, i)
        invariant findings == old0 + news && Valid()
        invariant JudgedAll(news, fs, look, rounds)
        invariant blockers == OfFate(news, true) && advisories == OfFate(news, false)
      {
        var rf, left := Classify(fs[i], look(i), budget);
        rf := rf.(round := rounds);
        JudgedRound(fs[i], look(i), budget);
        AddFinding(rf, fs[i], look(i), budget);
        OfFateSnoc(news, rf);
        JudgedSnoc(news, fs, look, rounds, rf);
        BudgetStep(fs, look, i);
        budget := left;
        news := news + [rf];
        if rf.fate.Pending? {
          blockers := blockers + [rf];
        } else if rf.fate.Advised? {
          advisories := advisories + [rf];
        }
        i := i + 1;
      }
    }

    method AddFinding(rf: Reviewed, ghost f: Finding, ghost x: Examination, ghost budget: nat)
      requires Valid() && rf.round == rounds && Judged(rf, f, x, budget)
      modifies this`findings, this`pending
      ensures Valid() && findings == old(findings) + [rf]
    {
      JudgedIsSound(rf, f, x, budget, rounds);
      OpenIndicesSnoc(findings, rf);
      hide Sound, Judged, OpenIndices;
      findings := findings + [rf];
      if rf.fate.Pending? {
        pending := pending + [|findings| - 1];
      }
    }

    /** Charges a reviewer call. */
    method Charged(model: string, u: Usage, spend: Spend?)
      requires Valid() && (spend != null ==> spend.Valid())
      modifies this`usage, spend
      ensures Valid() && usage == AddUsage(old(usage), u) && (spend != null ==> spend.Valid())
      ensures spend != null ==> spend.charges == old(spend.charges) + ChargeFor(model, u)
    {
      usage := AddUsage(usage, u);
      if spend != null {
        spend.Add(model, u);
      }
    }

    /** Asks the reviewer for the repro commands it left out; a refusal of the call only marks the status. */
    method Solicit(v: Verdict, answer: Solicitation, spend: Spend?) returns (fs: seq<Finding>)
      requires Valid() && (spend != null ==> spend.Valid())
      modifies this`status, this`usage, spend
      ensures Valid() && (spend != null ==> spend.Valid())
      ensures spend != null ==>
                spend.charges == old(spend.charges) + if Asked(v, answer) then ChargeFor(v.model, answer.usage) else []
      ensures fs == Effective(v, answer)
      ensures status == if Asked(v, answer) && answer.SolicitFailed? && !answer.status.Canceled? then answer.status
              else old(status)
      ensures usage == if Asked(v, answer) then AddUsage(old(usage), answer.usage) else old(usage)
    {
      var eligible := false;
      var i := 0;
      while i < |v.findings|
        invariant i <= |v.findings|
        invariant eligible <==> exists k :: 0 <= k < i && Solicitable(v.findings[k])
      {
        if Solicitable(v.findings[i]) {
          eligible := true;
        }
        i := i + 1;
      }
      hide Solicitable, Merge;
      assert eligible <==> exists f :: f in v.findings && Solicitable(f);
      if answer.NoSolicitor? || !eligible {
        return v.findings;
      }
      Charged(v.model, answer.usage, spend);
      if answer.SolicitFailed? {
        if !answer.status.Canceled? {
          status := answer.status;
        }
        return v.findings;
      }
      return MergeAll(v.findings, answer.merged);
    }

    /** What follows from the findings of this round. */
    method Decide(canContinue: bool, blockers: seq<Reviewed>, advisories: seq<Reviewed>, ghost earlier: seq<Reviewed>,
            ghost news: seq<Reviewed>)
      returns (o: Ruling)
      requires Valid() && findings == earlier + news
      requires blockers == OfFate(news, true) && advisories == OfFate(news, false)
      requires forall i :: 0 <= i < |earlier| ==> !earlier[i].fate.Pending? && earlier[i].round < rounds
      requires forall i :: 0 <= i < |news| ==> news[i].round == rounds && (news[i].confirmed ==> news[i].fate.Pending?)
      modifies this`status, this`blocked, this`findings, this`pending
      ensures Valid()
      ensures Due(earlier, news, canContinue && rounds < maxRounds, rounds, required, old(status), o)
      ensures status == StatusAfter(o, news, old(status))
      ensures o.Feedback? ==> findings == earlier + news && o == Feedback(OfFate(news, true), OfFate(news, false))
      ensures o.Pass? || (o.Block? && o.why.RequiredButUnavailable?) ==>
                findings == earlier + news && OfFate(news, true) == []
      ensures o.Block? && o.why.BlockersRemain? ==> findings == Settled(earlier + news, Expired)
      ensures o.Block? && o.why.Recurred? ==> exists i, j :: RecurredFrom(earlier, news, i, j, findings)
      ensures blocked == (old(blocked) || (o.Block? && (o.why.Recurred? || o.why.BlockersRemain?)))
      ensures o.Pass? ==> !(required && IsInfrastructure(status))
    {
      hide OpenIndices, OfFate, Sound, AllSound, Settled, Due, Repeats, RepeatsAt, FirstRepeat, RecurredFrom, Blocks,
        Stands, StatusAfter, IsInfrastructure;
      var cur, prev, ok := FindRecurringConfirmedBlocker();
      RecurrenceIs(earlier, news, cur, prev, ok);
      OfFateMeans(news);
      StandsIf(news);
      NotInfrastructure();
      if ok {
        status := Status.Blocked;
        ExpireEarlier(prev, cur);
        blocked := true;
        ResolvePending(Expired);
        HasRecurred(earlier, news, cur - |earlier|, prev, findings);
        DueIs(earlier, news, canContinue && rounds < maxRounds, rounds, required, old(status), Block(Recurred(rounds)));
        StatusIs(Block(Recurred(rounds)), news, old(status));
        return Block(Recurred(rounds));
      }
      if blockers == [] && advisories == [] {
        SetSemanticStatus(Clean);
        o := RequiredBlock();
        DueIs(earlier, news, canContinue && rounds < maxRounds, rounds, required, old(status), o);
        StatusIs(o, news, old(status));
        return;
      }
      if canContinue && rounds < maxRounds {
        SetSemanticStatus(Status.Blocked);
        if blockers == [] {
          SetSemanticStatus(Advisory);
        }
        o := Feedback(blockers, advisories);
        DueIs(earlier, news, canContinue && rounds < maxRounds, rounds, required, old(status), o);
        StatusIs(o, news, old(status));
        return;
      }
      if blockers == [] {
        SetSemanticStatus(Advisory);
        o := RequiredBlock();
        DueIs(earlier, news, canContinue && rounds < maxRounds, rounds, required, old(status), o);
        StatusIs(o, news, old(status));
        return;
      }
      status := Status.Blocked;
      blocked := true;
      ResolvePending(Expired);
      o := Block(BlockersRemain(rounds));
      DueIs(earlier, news, canContinue && rounds < maxRounds, rounds, required, old(status), o);
      StatusIs(o, news, old(status));
    }

    /** What the search for a recurrence found is one. */
    lemma RecurrenceIs(earlier: seq<Reviewed>, news: seq<Reviewed>, cur: nat, prev: nat, ok: bool)
      requires Valid() && findings == earlier + news
      requires forall i :: 0 <= i < |earlier| ==> !earlier[i].fate.Pending? && earlier[i].round < rounds
      requires forall i :: 0 <= i < |news| ==> news[i].round == rounds && (news[i].confirmed ==> news[i].fate.Pending?)
      requires ok ==> cur in pending && Recurs(cur, prev) && forall j: nat :: j < prev ==> !Recurs(cur, j)
      requires ok ==> forall idx: nat, j: nat :: idx in pending && idx < cur ==> !Recurs(idx, j)
      requires !ok ==> forall idx: nat, j: nat :: idx in pending ==> !Recurs(idx, j)
      ensures ok <==> Repeats(earlier, news)
      ensures ok ==> cur >= |earlier| && Recurs(cur, prev) && FirstRepeat(earlier, news, cur - |earlier|, prev)
      ensures ok ==> prev < |earlier|
    {
      OpenIndicesMeans(findings);
      hide OpenIndices, Sound, SamePlace;
      var n := |earlier|;
      forall i: nat, j: nat | i < |news|
        ensures Recurs(n + i, j) <==> RepeatsAt(earlier, news, i, j)
        ensures RepeatsAt(earlier, news, i, j) ==> n + i in pending
      {
        assert findings[n + i] == news[i];
        if j < n {
          assert findings[j] == earlier[j];
          SamePlaceIs(earlier[j].finding, news[i].finding);
        }
      }
      if ok {
        var i: nat := cur - n;
        assert RepeatsAt(earlier, news, i, prev);
        forall h: nat, k: nat | h < i ensures !RepeatsAt(earlier, news, h, k) {
          assert h < |news| ==> (Recurs(n + h, k) <==> RepeatsAt(earlier, news, h, k));
        }
      } else {
        forall i: nat, j: nat ensures !RepeatsAt(earlier, news, i, j) {
          assert i < |news| ==> (Recurs(n + i, j) <==> RepeatsAt(earlier, news, i, j));
        }
      }
    }

    /** An earlier finding that was taken for repaired turns out not to be. */
    method ExpireEarlier(prev: nat, ghost cur: nat)
      requires Valid() && Recurs(cur, prev)
      modifies this`findings
      ensures Valid() && findings == old(findings)[prev := old(findings)[prev].(fate := Expired)]
    {
      ghost var fs := findings;
      findings := findings[prev := findings[prev].(fate := Expired)];
      SameOpen(fs, findings);
    }

    /** One review of the current diff. */
    method RunRound(canContinue: bool, w: ReviewWorld, spend: Spend?) returns (o: Ruling)
      requires Valid() && (spend != null ==> spend.Valid())
      modifies this, spend
      ensures Valid() && (spend != null ==> spend.Valid())
      ensures spend != null ==> spend.charges == old(spend.charges) + RoundCharges(w)
      ensures usage == RoundUsage(old(usage), w)
      ensures rounds == old(rounds) + 1 && skip == (old(skip) || (w.answer.ReviewFailed? && old(findings) == []))
              && salvage == old(salvage)
      ensures blocked == (old(blocked) || (o.Block? && (o.why.Recurred? || o.why.BlockersRemain?)))
      ensures o.Pass? ==> !(required && IsInfrastructure(status))
      ensures o.Pass? || (o.Block? && o.why.RequiredButUnavailable?) ==> pending == []
      ensures w.answer.ReviewFailed? ==>
                && findings == Settled(old(findings), Repaired) && status == w.answer.status
                && o == if required && IsInfrastructure(status) then Block(RequiredButUnavailable(status)) else Pass
      ensures w.answer.ReviewDone? ==>
                RoundDone(Settled(old(findings), Repaired), RoundOf(canContinue, w, old(status)), o, findings, status)
      ensures o.Feedback? ==> canContinue && rounds < maxRounds
      ensures o.Feedback? <==>
              FeedbackDue(Settled(old(findings), Repaired), w, rounds, canContinue && rounds < maxRounds)
    {
      hide *;
      ghost var before := findings;
      ResolvePending(Repaired);
      ghost var earlier := findings;
      SettledCloses(before, Repaired);
      RoundsBefore(before);
      OneRoundUp();
      NoVerdictNoFeedback(earlier, w, rounds, canContinue && rounds < maxRounds);
      match w.answer {
        case ReviewFailed(s, paid) =>
          Costs(w, usage);
          if paid.Some? {
            Charged(paid.value.model, paid.value.usage, spend);
          }
          FailOpenRound(s, before);
          o := RequiredBlock();
        case ReviewDone(v) =>
          o := TakeVerdict(canContinue, w, spend, earlier);
      }
    }

    /** Every finding was made in a round so far. */
    lemma RoundsBefore(before: seq<Reviewed>)
      requires Valid() && findings == Settled(before, Repaired)
      ensures forall i :: 0 <= i < |findings| ==> findings[i].round < rounds + 1
    {
      hide OpenIndices, Settled;
    }

    /** A review that failed. */
    method FailOpenRound(s: Status, ghost before: seq<Reviewed>)
      requires Valid() && findings == Settled(before, Repaired)
      modifies this`status, this`skip
      ensures Valid() && status == s && skip == (old(skip) || before == [])
    {
      FailOpen(s);
    }

    /** The verdict of a round: paid for, completed by the repro commands that were missing, judged, and decided on. */
    method TakeVerdict(canContinue: bool, w: ReviewWorld, spend: Spend?, ghost earlier: seq<Reviewed>)
      returns (o: Ruling)
      requires Valid() && (spend != null ==> spend.Valid()) && w.answer.ReviewDone? && findings == earlier
      requires forall i :: 0 <= i < |earlier| ==> !earlier[i].fate.Pending? && earlier[i].round < rounds
      modifies this`usage, this`status, this`blocked, this`findings, this`pending, spend
      ensures Valid() && (spend != null ==> spend.Valid())
      ensures spend != null ==> spend.charges == old(spend.charges) + RoundCharges(w)
      ensures usage == RoundUsage(old(usage), w)
      ensures blocked == (old(blocked) || (o.Block? && (o.why.Recurred? || o.why.BlockersRemain?)))
      ensures o.Pass? ==> !(required && IsInfrastructure(status))
      ensures o.Pass? || (o.Block? && o.why.RequiredButUnavailable?) ==> pending == []
      ensures RoundDone(earlier, RoundOf(canContinue, w, old(status)), o, findings, status)
      ensures o.Feedback? <==> FeedbackDue(earlier, w, rounds, canContinue && rounds < maxRounds)
    {
      hide *;
      var v := w.answer.verdict;
      Costs(w, usage);
      Charged(v.model, v.usage, spend);
      var fs := Solicit(v, w.solicit, spend);
      var blockers, advisories; ghost var news;
      blockers, advisories, news := TakeFindings(fs, w.look);
      IsNews(news, w, rounds, old(status), status);
      o := Decide(canContinue, blockers, advisories, earlier, news);
      if o.Pass? || (o.Block? && o.why.RequiredButUnavailable?) {
        NothingBlocks(earlier, news);
        PendingOpen();
      }
      RoundIs(canContinue, w, old(status));
      IsRoundDone(earlier, news, RoundOf(canContinue, w, old(status)), o, findings, status);
    }

    /** The round that is being decided. */
    ghost function RoundOf(canContinue: bool, w: ReviewWorld, before: Status): Round
      requires w.answer.ReviewDone?
      reads this`rounds
    {
      Round(w, rounds, canContinue && rounds < maxRounds, required, SolicitStatus(before, w))
    }

    lemma RoundIs(canContinue: bool, w: ReviewWorld, before: Status)
      requires w.answer.ReviewDone?
      ensures RoundOf(canContinue, w, before) ==
              Round(w, rounds, canContinue && rounds < maxRounds, required, SolicitStatus(before, w))
    {
    }

    lemma PendingOpen()
      requires Valid()
      ensures pending == OpenIndices(findings)
    {
    }

    method OneRoundUp()
      requires Valid() && pending == []
      modifies this`rounds
      ensures Valid() && rounds == old(rounds) + 1
    {
      OpenIndicesMeans(findings);
      rounds := rounds + 1;
    }

    /** The review stage of a finish whose earlier stages passed. */
    method ReviewFinish(canContinue: bool, w: ReviewWorld, spend: Spend?) returns (o: Ruling)
      requires Valid() && (spend != null ==> spend.Valid())
      modifies this, spend
      ensures Valid() && (spend != null ==> spend.Valid()) && salvage == old(salvage)
      ensures spend != null ==>
                spend.charges == old(spend.charges) + if Reached(old(skip), w) then RoundCharges(w) else []
      ensures usage == if Reached(old(skip), w) then RoundUsage(old(usage), w) else old(usage)
      ensures rounds == old(rounds) + if Reached(old(skip), w) then 1 else 0
      ensures Ruled(canContinue, w, old(Remembered()), o, Remembered())
      ensures o.Feedback? ==> canContinue && rounds < maxRounds
      ensures o.Feedback? <==>
              && Reached(old(skip), w)
              && FeedbackDue(Settled(old(findings), Repaired), w, rounds, canContinue && rounds < maxRounds)
      ensures blocked == (old(blocked) || (o.Block? && (o.why.Recurred? || o.why.BlockersRemain?)))
      ensures !Reached(old(skip), w) ==> findings == old(findings) && pending == old(pending)
      ensures o.Block? && (o.why.Recurred? || o.why.BlockersRemain?) ==> Reached(old(skip), w) && w.answer.ReviewDone?
      ensures Reached(old(skip), w) && w.answer.ReviewFailed? ==>
                && findings == Settled(old(findings), Repaired) && status == w.answer.status
                && o == if required && IsInfrastructure(status) then Block(RequiredButUnavailable(status)) else Pass
      ensures Reached(old(skip), w) && w.answer.ReviewDone? ==>
                RoundDone(Settled(old(findings), Repaired), RoundOf(canContinue, w, old(status)), o, findings, status)
      ensures Reached(old(skip), w) && o.Pass? ==> pending == []
      ensures o.Pass? && required ==>
                !old(skip) && (w.canceled || w.diff.BlankDiff? || !IsInfrastructure(status))
      ensures old(skip) ==> o == (if required then Block(SkippedButRequired) else Pass) && skip && status == old(status)
      ensures !old(skip) && w.canceled ==> o == Pass && !skip && status.Canceled?
      ensures !old(skip) && !w.canceled && w.diff.BlankDiff? ==>
                o == Pass && !skip && status == if IsInfrastructure(old(status)) then old(status) else Clean
      ensures !old(skip) && !w.canceled && w.diff.DiffFailed? ==>
                && status == w.diff.status && skip == (old(findings) == [])
                && o == if required && IsInfrastructure(status) then Block(RequiredButUnavailable(status)) else Pass
    {
      hide OpenIndices, OfFate, Sound, Settled, RoundDone, AllSound, FeedbackDue, SolicitStatus;
      if skip {
        return if required then Block(SkippedButRequired) else Pass;
      }
      if w.canceled {
        status := Status.Canceled;
        return Pass;
      }
      match w.diff {
        case DiffFailed(s) =>
          FailOpen(s);
          return RequiredBlock();
        case BlankDiff =>
          SetSemanticStatus(Clean);
          return Pass;
        case SomeDiff =>
          o := RunRound(canContinue, w, spend);
      }
    }
  }

  /** The reviewer is actually asked. */
  predicate Reached(skip: bool, w: ReviewWorld) {
    !skip && !w.canceled && w.diff.SomeDiff?
  }

  predicate Asked(v: Verdict, answer: Solicitation) {
    !answer.NoSolicitor? && exists f :: f in v.findings && Solicitable(f)
  }

  /** The reviewer is asked again for the blockers from confidence 7 that came without a repro command. */
  lemma AskedMeans(v: Verdict, answer: Solicitation)
    ensures Asked(v, answer) <==>
            && !answer.NoSolicitor?
            && exists f :: f in v.findings && f.severity.Blocker? && f.confidence >= 7 && f.reproCmd == ""
  {
    assert forall f :: Solicitable(f) <==> f.severity.Blocker? && f.confidence >= 7 && f.reproCmd == "";
  }

  /** What a round costs: the verdict, also of a review that failed, and the question for repro commands. */
  function RoundCharges(w: ReviewWorld): seq<Charge> {
    match w.answer
    case ReviewFailed(_, None) => []
    case ReviewFailed(_, Some(v)) => ChargeFor(v.model, v.usage)
    case ReviewDone(v) =>
      ChargeFor(v.model, v.usage) + if Asked(v, w.solicit) then ChargeFor(v.model, w.solicit.usage) else []
  }

  function RoundUsage(u: Usage, w: ReviewWorld): Usage {
    match w.answer
    case ReviewFailed(_, None) => u
    case ReviewFailed(_, Some(v)) => AddUsage(u, v.usage)
    case ReviewDone(v) =>
      if Asked(v, w.solicit) then AddUsage(AddUsage(u, v.usage), w.solicit.usage) else AddUsage(u, v.usage)
  }

  lemma Costs(w: ReviewWorld, u: Usage)
    ensures w.answer.ReviewDone? ==>
              var v, asked := w.answer.verdict, Asked(w.answer.verdict, w.solicit);
              && RoundCharges(w) ==
                 ChargeFor(v.model, v.usage) + (if asked then ChargeFor(v.model, w.solicit.usage) else [])
              && RoundUsage(u, w) ==
                 if asked then AddUsage(AddUsage(u, v.usage), w.solicit.usage) else AddUsage(u, v.usage)
    ensures w.answer.ReviewFailed? && w.answer.paid.None? ==> RoundCharges(w) == [] && RoundUsage(u, w) == u
    ensures w.answer.ReviewFailed? && w.answer.paid.Some? ==>
              var v := w.answer.paid.value;
              RoundCharges(w) == ChargeFor(v.model, v.usage) && RoundUsage(u, w) == AddUsage(u, v.usage)
  {
    hide Asked, AddUsage, ChargeFor;
  }

  /** The findings of a verdict after the repro commands were asked for. */
  function Effective(v: Verdict, answer: Solicitation): seq<Finding> {
    if Asked(v, answer) && answer.Solicited? then MergeAll(v.findings, answer.merged) else v.findings
  }

  /** After a recurrence: the earlier finding j is expired after all, and so is everything open. */
  ghost predicate RecurredFrom(earlier: seq<Reviewed>, news: seq<Reviewed>, i: nat, j: nat, out: seq<Reviewed>) {
    && FirstRepeat(earlier, news, i, j)
    && out == Settled(earlier[j := earlier[j].(fate := Expired)] + news, Expired)
  }

  lemma HasRecurred(earlier: seq<Reviewed>, news: seq<Reviewed>, i: nat, j: nat, out: seq<Reviewed>)
    requires FirstRepeat(earlier, news, i, j)
    requires out == Settled((earlier + news)[j := (earlier + news)[j].(fate := Expired)], Expired)
    ensures RecurredFrom(earlier, news, i, j, out)
  {
    hide Settled, SamePlace;
    assert (earlier + news)[j := (earlier + news)[j].(fate := Expired)] ==
           earlier[j := earlier[j].(fate := Expired)] + news;
  }

  /** A completed round: what it met, its number, whether the run may go on, and the status before its findings. */
  datatype Round = Round(w: ReviewWorld, n: nat, may: bool, required: bool, before: Status)

  /** The status after the repro commands were asked for. */
  function SolicitStatus(s: Status, w: ReviewWorld): Status
    requires w.answer.ReviewDone?
  {
    if Asked(w.answer.verdict, w.solicit) && w.solicit.SolicitFailed? && !w.solicit.status.Canceled? then
      w.solicit.status
    else s
  }

  /**
   The ruling of a completed round is the one that is due, and leaves the verdict's findings after the
   earlier ones.
  */
  ghost predicate RoundDone(earlier: seq<Reviewed>, r: Round, o: Ruling, out: seq<Reviewed>, status: Status)
    requires r.w.answer.ReviewDone?
  {
    var news := FreshNews(r.w, r.n);
    && Due(earlier, news, r.may, r.n, r.required, r.before, o) && status == StatusAfter(o, news, r.before)
    && Leaves(earlier, news, o, out)
  }

  ghost predicate Leaves(earlier: seq<Reviewed>, news: seq<Reviewed>, o: Ruling, out: seq<Reviewed>) {
    match o
    case Feedback(b, a) => out == earlier + news && b == OfFate(news, true) && a == OfFate(news, false)
    case Block(Recurred(_)) => exists i, j :: RecurredFrom(earlier, news, i, j, out)
    case Block(BlockersRemain(_)) => out == Settled(earlier + news, Expired)
    case _ => out == earlier + news && OfFate(news, true) == []
  }

  /** What the ladder makes of the verdict's findings. */
  function FreshNews(w: ReviewWorld, round: nat): (news: seq<Reviewed>)
    requires w.answer.ReviewDone?
  {
    var fs := Effective(w.answer.verdict, w.solicit);
    seq(|fs|, i requires 0 <= i < |fs| => Fresh(fs[i], w.look(i), BudgetAt(fs, w.look, i), round))
  }

  function Fresh(f: Finding, x: Examination, budget: nat, round: nat): (rf: Reviewed)
    ensures Judged(rf, f, x, budget)
  {
    hide FateOf, WantsRun, LeftDirty;
    var ran := WantsRun(f, x) && budget > 0 && RanClean(x);
    Reviewed(f, round, FateOf(f, x, budget), ran && x.run.value.exit.Failed?, if ran then x.run else None)
  }

  lemma NewsAreFresh(news: seq<Reviewed>, w: ReviewWorld, round: nat)
    requires w.answer.ReviewDone? && NewsOf(news, w, round)
    ensures news == FreshNews(w, round)
  {
    hide FateOf, WantsRun, RanClean, Effective, BudgetAt;
  }

  lemma FreshIsNews(w: ReviewWorld, round: nat)
    requires w.answer.ReviewDone?
    ensures NewsOf(FreshNews(w, round), w, round)
  {
    hide FateOf, WantsRun, RanClean, Effective, BudgetAt;
  }

  /** The review of a finish is due to be fed back. */
  ghost predicate FeedbackDue(earlier: seq<Reviewed>, w: ReviewWorld, round: nat, may: bool) {
    && w.answer.ReviewDone? && may
    && Stands(FreshNews(w, round)) && !Repeats(earlier, FreshNews(w, round))
  }

  ghost predicate NewsOf(news: seq<Reviewed>, w: ReviewWorld, rounds: nat)
    requires w.answer.ReviewDone?
  {
    var fs := Effective(w.answer.verdict, w.solicit);
    |news| == |fs| && JudgedAll(news, fs, w.look, rounds)
  }

  /** The findings that were taken in are the verdict's. */
  lemma IsNews(news: seq<Reviewed>, w: ReviewWorld, round: nat, before: Status, after: Status)
    requires w.answer.ReviewDone?
    requires |news| == |Effective(w.answer.verdict, w.solicit)|
    requires JudgedAll(news, Effective(w.answer.verdict, w.solicit), w.look, round)
    requires after == if Asked(w.answer.verdict, w.solicit) && w.solicit.SolicitFailed? && !w.solicit.status.Canceled?
                      then w.solicit.status else before
    ensures NewsOf(news, w, round) && after == SolicitStatus(before, w)
    ensures forall i :: 0 <= i < |news| ==> news[i].round == round && (news[i].confirmed ==> news[i].fate.Pending?)
  {
    hide Effective, BudgetAt, Grounded, LeftDirty, Asked;
  }

  lemma SettledCloses(fs: seq<Reviewed>, fate: Fate)
    requires !fate.Pending?
    ensures forall i :: 0 <= i < |Settled(fs, fate)| ==> !Settled(fs, fate)[i].fate.Pending?
  {
  }

  lemma NoVerdictNoFeedback(earlier: seq<Reviewed>, w: ReviewWorld, round: nat, may: bool)
    ensures FeedbackDue(earlier, w, round, may) ==> w.answer.ReviewDone? && may
  {
  }

  lemma {:induction false} IsRoundDone(earlier: seq<Reviewed>, news: seq<Reviewed>, r: Round, o: Ruling,
          out: seq<Reviewed>, status: Status)
    requires r.w.answer.ReviewDone? && NewsOf(news, r.w, r.n)
    requires Due(earlier, news, r.may, r.n, r.required, r.before, o) && status == StatusAfter(o, news, r.before)
    requires o.Feedback? ==> out == earlier + news && o == Feedback(OfFate(news, true), OfFate(news, false))
    requires o.Pass? || (o.Block? && o.why.RequiredButUnavailable?) ==>
               out == earlier + news && OfFate(news, true) == []
    requires o.Block? && o.why.BlockersRemain? ==> out == Settled(earlier + news, Expired)
    requires o.Block? && o.why.Recurred? ==> exists i, j :: RecurredFrom(earlier, news, i, j, out)
    ensures RoundDone(earlier, r, o, out, status)
    ensures o.Feedback? <==> FeedbackDue(earlier, r.w, r.n, r.may)
  {
    NewsAreFresh(news, r.w, r.n);
    hide NewsOf, FreshNews, OfFate, Settled, RecurredFrom, Repeats, Stands, Blocks, StatusAfter, IsInfrastructure;
  }

  /** Only findings of the new round are open. */
  lemma {:induction false} OpenNews(earlier: seq<Reviewed>, news: seq<Reviewed>)
    requires forall i :: 0 <= i < |earlier| ==> !earlier[i].fate.Pending?
    ensures OfFate(news, true) == [] <==> OpenIndices(earlier + news) == []
    decreases |news|
  {
    hide *;
    if news == [] {
      assert earlier + news == earlier;
      NothingOpen(earlier);
      NoneOfFate();
    } else {
      var n := |news| - 1;
      OpenNews(earlier, news[..n]);
      OfFateSnoc(news[..n], news[n]);
      OpenIndicesSnoc(earlier + news[..n], news[n]);
      assert news[..n] + [news[n]] == news;
      assert earlier + news[..n] + [news[n]] == earlier + news;
    }
  }

  lemma NoneOfFate()
    ensures OfFate([], true) == [] && OfFate([], false) == []
  {
  }

  lemma {:induction false} NothingBlocks(earlier: seq<Reviewed>, news: seq<Reviewed>)
    requires OfFate(news, true) == [] && forall i :: 0 <= i < |earlier| ==> !earlier[i].fate.Pending?
    ensures OpenIndices(earlier + news) == []
  {
    OpenNews(earlier, news);
  }

  lemma {:induction false} SameOpen(fs: seq<Reviewed>, gs: seq<Reviewed>)
    requires |fs| == |gs| && forall i :: 0 <= i < |fs| ==> fs[i].fate.Pending? == gs[i].fate.Pending?
    ensures OpenIndices(fs) == OpenIndices(gs)
  {
    if fs != [] {
      SameOpen(fs[..|fs| - 1], gs[..|gs| - 1]);
    }
  }

  /** The round a finding is filed under plays no part in the ladder. */
  lemma JudgedRound(f: Finding, x: Examination, budget: nat)
    ensures forall rf: Reviewed, r: nat :: Judged(rf, f, x, budget) ==> Judged(rf.(round := r), f, x, budget)
  {
    hide FateOf, WantsRun, RanClean;
  }

  lemma BudgetStep(fs: seq<Finding>, look: nat -> Examination, i: nat)
    requires i < |fs|
    ensures BudgetAt(fs, look, i + 1) ==
            var b := BudgetAt(fs, look, i); if WantsRun(fs[i], look(i)) && b > 0 then b - 1 else b
  {
    hide WantsRun;
  }

  lemma SettledIsSound(fs: seq<Reviewed>, fate: Fate, rounds: nat)
    requires AllSound(fs, rounds) && (fate.Repaired? || fate.Expired?)
    ensures AllSound(Settled(fs, fate), rounds) && OpenIndices(Settled(fs, fate)) == []
  {
    NothingOpen(Settled(fs, fate));
    hide OpenIndices;
  }

  lemma {:induction false} OfFateSnoc(fs: seq<Reviewed>, f: Reviewed)
    ensures OfFate(fs + [f], true) == OfFate(fs, true) + if f.fate.Pending? then [f] else []
    ensures OfFate(fs + [f], false) == OfFate(fs, false) + if f.fate.Advised? then [f] else []
  {
    assert (fs + [f])[..|fs|] == fs;
  }

  lemma {:induction false} JudgedSnoc(news: seq<Reviewed>, fs: seq<Finding>, look: nat -> Examination, round: nat,
          rf: Reviewed)
    requires JudgedAll(news, fs, look, round) && |news| < |fs|
    requires rf.round == round && Judged(rf, fs[|news|], look(|news|), BudgetAt(fs, look, |news|))
    ensures JudgedAll(news + [rf], fs, look, round)
  {
    hide Judged, BudgetAt;
  }
}
