/**
 The closing gates: every way a run can end Answered passes through the fence, the diff scope, the
 verify command, the repro gate and the review, in that order.  What the workspace, the commands
 and the reviewer answer during one finish is given as a record.
*/
module Gates {
  import opened Runs
  import opened Generate
  import opened Spending
  import Review
  import Repro
  import Fence

  datatype RunOutcome =
    | Answered | Unverified | HitCap | KilledRepeat | KilledSpiral | KilledStagnant | HitDeadline | HitBudget
    | ProviderErr | HitContextLimit | RefusedUnsafe | ScopeViolation | Canceled

  const AUTO_VERIFY_MAX_FEEDBACK: nat := 2

  /** The part of the policy that the gates read.  cmd is "" when no verify command is armed. */
  datatype Policy = Policy(
    cmd: string, soft: bool, skipBaseline: bool, lastRunCheck: bool, verifyContinue: bool,
    requireDiff: bool, reproFirst: bool, reviewUnverified: bool)

  /** The result of starting a command: its output, or the fact that it could not start. */
  datatype Exec = Exec(out: RunOutput, error: bool)

  datatype Check = Clean | Violated | Unverifiable

  datatype Reason =
    | Fine
    | FenceViolated | FenceUnverifiable | ScopeViolated | ScopeUnverifiable
    | NoChanges
    | VerifyCanceled | VerifyUnrunnable | LastRunFailing
    | DidNotPass(out: RunOutput) | VerifyTimedOut(out: RunOutput) | VerifyInfra(out: RunOutput)
    | RunCanceled
    | ReproObjects(objection: Repro.Objection)
    | EmptyAnswer
    | ReviewBlocks(why: Review.Why)
    | ReviewAdvises(blockers: seq<Review.Reviewed>, advisories: seq<Review.Reviewed>)

  /** What verify executions answer: up to two runs, each of which a cancel may prevent. */
  datatype VerifyWorld = VerifyWorld(canceled1: bool, exec1: Exec, canceled2: bool, exec2: Exec)

  /** The workspace tree as it is read at some moment; None when it cannot be read. */
  type Snapshot = Option<string>

  datatype FinishWorld = FinishWorld(
    fence: Check, scope: Check,
    diffTree: Snapshot, completionTree: Snapshot, preVerifyTree: Snapshot,
    verify: VerifyWorld, canceled: bool, repro: Repro.RerunWorld,
    salvageCanceled: bool, salvageDiff: Review.Diff, salvage: Review.ReviewWorld,
    review: Review.ReviewWorld)

  datatype FinishInput = FinishInput(answer: string, blank: bool, lastRunFailed: bool, canContinue: bool, trusted: bool)

  datatype Decision =
    | Continue(why: Reason)
    | Stop(outcome: RunOutcome, why: Reason, answer: string)
    | Accept(answer: string)

  // ---- verify --------------------------------------------------------------------------------------

  predicate Green(e: Exec) {
    !e.error && !e.out.exit.Failed?
  }

  /** An environment fault is tried once more; only the upgrade of a killed run does so after a timeout. */
  predicate Retried(w: VerifyWorld, upgrade: bool) {
    !w.exec1.error && w.exec1.out.exit.Failed? && w.exec1.out.infra != "" && (upgrade || !w.exec1.out.timedOut)
  }

  /** The executions of one verify stage. */
  function Executed(w: VerifyWorld, upgrade: bool): seq<Exec> {
    if w.canceled1 then [] else if Retried(w, upgrade) && !w.canceled2 then [w.exec1, w.exec2] else [w.exec1]
  }

  /** The stage vouches for the workspace: something ran, and the last thing that ran was green. */
  predicate LastGreen(w: VerifyWorld, upgrade: bool) {
    var ran := Executed(w, upgrade);
    ran != [] && Green(ran[|ran| - 1])
  }

  datatype Closing = Closing(out: RunOutput, tree: string)

  /** A failure that looks exactly like the one the untouched workspace already had. */
  predicate LooksLike(r: Reason, baseline: RunOutput) {
    match r
    case DidNotPass(out) => out.fingerprint == baseline.fingerprint
    case VerifyTimedOut(out) => out.saysDidNotPass && out.fingerprint == baseline.fingerprint
    case _ => false
  }

  predicate FromVerify(r: Reason) {
    r.VerifyCanceled? || r.VerifyUnrunnable? || r.LastRunFailing? || r.DidNotPass? || r.VerifyTimedOut?
      || r.VerifyInfra?
  }

  /** What the untouched workspace answered to the verify command before the run. */
  datatype Baseline = Baseline(measured: bool, red: bool, out: RunOutput, infra: string)

  /** What a baseline can be: a red one is a plain failure of the command. */
  predicate WellMeasured(pol: Policy, b: Baseline) {
    && (b.red ==> b.measured && b.out.exit.Failed? && !b.out.timedOut && b.out.infra == "")
    && (b.measured ==> pol.cmd != "" && !pol.skipBaseline)
  }

  /** A command that timed out, hit a fault or could not start measures nothing. */
  function MeasureBaseline(pol: Policy, canceled: bool, e: Exec): (b: Baseline)
    ensures b.measured <==>
              && pol.cmd != "" && !pol.skipBaseline && !canceled && !e.error
              && (e.out.exit.Failed? ==> !e.out.timedOut && e.out.infra == "")
    ensures b.red <==> b.measured && e.out.exit.Failed?
    ensures b.out == e.out
    ensures b.infra != "" ==> b.infra == e.out.infra && !b.measured && !e.out.timedOut
    ensures !b.measured && pol.cmd != "" && !pol.skipBaseline && !canceled && !e.error && !e.out.timedOut ==>
              b.infra == e.out.infra
    ensures WellMeasured(pol, b)
  {
    if pol.cmd == "" || pol.skipBaseline || canceled || e.error then Baseline(false, false, e.out, "")
    else if !e.out.exit.Failed? then Baseline(true, false, e.out, "")
    else if e.out.timedOut then Baseline(false, false, e.out, "")
    else if e.out.infra != "" then Baseline(false, false, e.out, e.out.infra)
    else Baseline(true, true, e.out, "")
  }

  // ---- results -------------------------------------------------------------------------------------

  datatype Result = Result(outcome: RunOutcome, answer: string, rescuedFrom: Option<RunOutcome>)

  datatype UpgradeWorld = UpgradeWorld(
    scope: Check, diffTree: Snapshot, fence: Check, preVerifyTree: Snapshot, verify: VerifyWorld,
      repro: Repro.RerunWorld,
    salvageCanceled: bool, salvageDiff: Review.Diff, salvage: Review.ReviewWorld, review: Review.ReviewWorld)

  // ---- the gates -------------------------------------------------------------------------------------

  /** What the gates carry from one finish of a run to the next. */
  datatype Memory = Memory(softFeedback: nat, graceUsed: bool, review: Option<Review.Memory>)

  class GateKeeper {
    const pol: Policy
    const runBaseTree: string   // "" when the tree at the start of the run was not captured
    const base: Baseline
    const review: Review.ReviewState?
    const repro: Repro.ReproGate
    const spend: Spend?

    var infraSignature: string
    var graceUsed: bool         // the one rescue round for a failure the baseline already had
    var softFeedback: nat
    var closing: Option<Closing>
    var executions: seq<Exec>   // every verify execution so far

    ghost var identicalFedBack: nat   // finishes sent back over a failure the baseline already had
    ghost var softRejected: nat       // finishes that a soft gate did not let through
    ghost var ruling: Option<Review.Ruling>   // what the review said in the last finish

    ghost predicate Valid()
      reads this, review, spend
    {
      && WellMeasured(pol, base)
      && (review != null ==> review.Valid()) && (spend != null ==> spend.Valid())
      && identicalFedBack <= (if graceUsed then 1 else 0)
      && softRejected <= softFeedback && softRejected <= AUTO_VERIFY_MAX_FEEDBACK
    }

    constructor (pol: Policy, runBaseTree: string, base: Baseline, review: Review.ReviewState?, spend: Spend?,
            fenced: string -> bool, fenceBase: map<string, Fence.Fenced>)
      requires WellMeasured(pol, base)
      requires review != null ==> review.Valid()
      requires spend != null ==> spend.Valid()
      ensures Valid() && fresh(this.repro) && this.repro.state.Undeclared?
      ensures this.pol == pol && this.runBaseTree == runBaseTree && this.base == base
      ensures this.review == review && this.spend == spend
      ensures this.repro.fenced == fenced && this.repro.fenceBase == fenceBase
      ensures !graceUsed && softFeedback == 0 && executions == [] && identicalFedBack == 0 && softRejected == 0
    {
      this.pol, this.runBaseTree, this.base, this.review, this.spend := pol, runBaseTree, base, review, spend;
      repro := new Repro.ReproGate(fenced, fenceBase);
      infraSignature, graceUsed, softFeedback, closing, executions := base.infra, false, 0, None, [];
      identicalFedBack, softRejected, ruling := 0, 0, None;
    }

    predicate Unchanged(tree: Snapshot) {
      runBaseTree != "" && tree == Some(runBaseTree)
    }

    /** Fence and scope; an armed check that cannot be made fails closed. */
    static function VerifySafety(fence: Check, scope: Check): (r: (RunOutcome, Reason, bool))
      ensures r.1.Fine? <==> fence.Clean? && scope.Clean?
      ensures r.0.ScopeViolation? <==> fence.Clean? && scope.Violated?
      ensures !r.1.Fine? && !r.0.ScopeViolation? ==> r.0.Unverified? && r.2
      ensures r.1.Fine? || r.0.ScopeViolation? ==> !r.2
    {
      if fence.Violated? then (Unverified, FenceViolated, true)
      else if fence.Unverifiable? then (Unverified, FenceUnverifiable, true)
      else if scope.Unverifiable? then (Unverified, ScopeUnverifiable, true)
      else if scope.Violated? then (ScopeViolation, ScopeViolated, false)
      else (Unverified, Fine, false)
    }

    /** The output that decides a verify run, unless it was canceled or could not start. */
    function DecidingOut(w: VerifyWorld): Option<RunOutput> {
      if w.canceled1 || w.exec1.error then None
      else if Retried(w, false) && !w.canceled2 && !w.exec2.error then Some(w.exec2.out)
      else Some(w.exec1.out)
    }

    /** Why a verify run did not vouch for the workspace. */
    function VerifyReason(w: VerifyWorld): Reason {
      match DecidingOut(w)
      case None => if w.canceled1 then VerifyCanceled else VerifyUnrunnable
      case Some(o) => if o.timedOut then VerifyTimedOut(o) else if o.infra != "" then VerifyInfra(o) else DidNotPass(o)
    }

    /** Runs the verify command, a second time after an environment fault. */
    method VerifyTermination(lastRunFailed: bool, w: VerifyWorld) returns (reason: Reason, out: Option<RunOutput>)
      modifies this`executions
      ensures reason.Fine? || FromVerify(reason)
      ensures pol.cmd != "" ==> executions == old(executions) + Executed(w, false)
      ensures pol.cmd == "" ==> executions == old(executions) && out.None?
      ensures pol.cmd != "" ==> (reason.Fine? <==> LastGreen(w, false)) && out == DecidingOut(w)
      ensures pol.cmd != "" && !reason.Fine? ==> reason == VerifyReason(w)
      ensures pol.cmd == "" ==> reason == if pol.lastRunCheck && lastRunFailed then LastRunFailing else Fine
      ensures pol.cmd != "" && reason.Fine? ==> out == Some(Executed(w, false)[|Executed(w, false)| - 1].out)
      ensures match reason
              case DidNotPass(o) => out == Some(o) && o.infra == "" && !o.timedOut
              case VerifyTimedOut(o) => out == Some(o) && o.timedOut
              case VerifyInfra(o) => out == Some(o) && o.infra != "" && !o.timedOut
              case Fine => true
              case _ => out.None?
    {
      if pol.cmd == "" {
        return if pol.lastRunCheck && lastRunFailed then LastRunFailing else Fine, None;
      }
      if w.canceled1 {
        return VerifyCanceled, None;
      }
      executions := executions + [w.exec1];
      if w.exec1.error {
        return VerifyUnrunnable, None;
      }
      var o := w.exec1.out;
      if o.exit.Failed? && !o.timedOut && o.infra != "" {
        if !w.canceled2 {
          executions := executions + [w.exec2];
          if !w.exec2.error {
            o := w.exec2.out;
          }
        }
      }
      if o.exit.Failed? {
        if o.timedOut {
          return VerifyTimedOut(o), Some(o);
        }
        if o.infra != "" {
          return VerifyInfra(o), Some(o);
        }
        return DidNotPass(o), Some(o);
      }
      return Fine, Some(o);
    }

    /** A failed verify becomes a rejection, unless the gate is soft and its patience is spent. */
    method VerifyCompletionFailure(reason: Reason, out: Option<RunOutput>) returns (rejected: bool, noContinue: bool)
      requires Valid() && (reason.Fine? || FromVerify(reason))
      requires match reason
               case DidNotPass(o) => out == Some(o) && o.infra == ""
               case VerifyTimedOut(o) => out == Some(o)
               case VerifyInfra(o) => out == Some(o) && o.infra != ""
               case Fine => true
               case _ => out.None?
      modifies this`softFeedback, this`softRejected, this`infraSignature, this`graceUsed
      ensures softFeedback == old(softFeedback) + if pol.soft && !reason.Fine? then 1 else 0
      ensures !pol.soft ==> (rejected <==> !reason.Fine?)
      ensures pol.soft ==> (rejected <==>
                !reason.Fine? && softFeedback <= AUTO_VERIFY_MAX_FEEDBACK && !(out.Some? && out.value.infra != ""))
      ensures softRejected == old(softRejected) + if pol.soft && rejected then 1 else 0
      ensures infraSignature ==
              if !reason.Fine? && Faulty(out) && (pol.soft || !out.value.timedOut) then out.value.infra
              else old(infraSignature)
      ensures softRejected <= softFeedback && softRejected <= AUTO_VERIFY_MAX_FEEDBACK
      ensures rejected && !noContinue && base.red && LooksLike(reason, base.out) ==> !old(graceUsed)
      ensures graceUsed == (old(graceUsed) || (rejected && !noContinue && base.red && LooksLike(reason, base.out)))
      ensures !rejected ==> !noContinue
      ensures rejected ==>
                (noContinue <==> (out.Some? && out.value.infra != "") || (!pol.soft && out.Some? && out.value.timedOut)
                                 || (base.red && LooksLike(reason, base.out) && old(graceUsed)))
    {
      if reason.Fine? {
        return false, false;
      }
      var infra := if out.Some? then out.value.infra else "";
      if pol.soft {
        softFeedback := softFeedback + 1;
        if softFeedback > AUTO_VERIFY_MAX_FEEDBACK || infra != "" {
          if infra != "" {
            infraSignature := infra;
          }
          return false, false;
        }
        softRejected := softRejected + 1;
      }
      if !pol.soft && out.Some? && out.value.timedOut {
        return true, true;
      }
      if infra != "" {
        infraSignature := infra;
        return true, true;
      }
      noContinue := false;
      if base.red && LooksLike(reason, base.out) {
        if !graceUsed {
          graceUsed := true;
        } else {
          noContinue := true;
        }
      }
      return true, noContinue;
    }

    /** require-diff holds the finish up. */
    predicate NoDiff(w: FinishWorld) {
      pol.requireDiff && Unchanged(w.diffTree)
    }

    /**
     The verify stage of an untrusted finish fails: the red baseline of an unchanged tree, the command,
     or the last run.
    */
    predicate StageFails(w: FinishWorld, lastRunFailed: bool) {
      if BaselineDecides(w) then base.red
      else if pol.cmd != "" then !LastGreen(w.verify, false)
      else pol.lastRunCheck && lastRunFailed
    }

    /** The output behind that, when there is one. */
    function StageOut(w: FinishWorld): Option<RunOutput> {
      if BaselineDecides(w) then Some(base.out) else if pol.cmd != "" then DecidingOut(w.verify) else None
    }

    function StageReason(w: FinishWorld): Reason {
      if BaselineDecides(w) then DidNotPass(base.out)
      else if pol.cmd != "" then VerifyReason(w.verify)
      else LastRunFailing
    }

    predicate Faulty(out: Option<RunOutput>) {
      out.Some? && out.value.infra != ""
    }

    /** The failure holds the finish up: a soft gate lets it pass after two, or when it was an environment fault. */
    predicate Rejects(w: FinishWorld, lastRunFailed: bool, softFeedback0: nat) {
      StageFails(w, lastRunFailed) && (pol.soft ==> softFeedback0 < AUTO_VERIFY_MAX_FEEDBACK && !Faulty(StageOut(w)))
    }

    /** The failure is one that the untouched workspace already had. */
    predicate OldFailure(w: FinishWorld) {
      base.red && LooksLike(StageReason(w), base.out)
    }

    /**
     An old failure is told by its output: neither a fault nor an unexplained timeout, and the baseline's
     own fingerprint.
    */
    lemma OldFailureIff(w: FinishWorld, lastRunFailed: bool)
      requires WellMeasured(pol, base) && StageFails(w, lastRunFailed)
      ensures OldFailure(w) <==>
              && base.red && StageOut(w).Some? && StageOut(w).value.fingerprint == base.out.fingerprint
              && if StageOut(w).value.timedOut then StageOut(w).value.saysDidNotPass else !Faulty(StageOut(w))
    {
      hide LastGreen;
    }

    /** The run may not go on after it: a fault, a timeout under a hard gate, or an old failure for the second time. */
    predicate Barred(w: FinishWorld, graceUsed0: bool) {
      || Faulty(StageOut(w))
      || (!pol.soft && StageOut(w).Some? && StageOut(w).value.timedOut)
      || (OldFailure(w) && graceUsed0)
    }

    /** The stage was decided by the tree being the one the run started from. */
    predicate BaselineDecides(w: FinishWorld) {
      Unchanged(w.completionTree) && (pol.soft || (!pol.skipBaseline && base.measured))
    }

    /** Over a whole run: one rescue round for the baseline's own failure, and two rejections of a soft gate. */
    lemma Patience()
      requires Valid()
      ensures identicalFedBack <= 1 && softRejected <= 2
    {
      hide WellMeasured, Accounts;
    }

    /** The verify stage of an untrusted finish has nothing against it, the gate being hard. */
    predicate VerifyClears(w: FinishWorld, lastRunFailed: bool) {
      && !(pol.requireDiff && Unchanged(w.diffTree))
      && if BaselineDecides(w) then !base.red
         else if pol.cmd != "" then LastGreen(w.verify, false)
         else !(pol.lastRunCheck && lastRunFailed)
    }

    method VerifyCompletion(lastRunFailed: bool, w: FinishWorld) returns (reason: Reason, noContinue: bool)
      requires Valid()
      modifies this`executions, this`closing, this`softFeedback, this`softRejected, this`infraSignature, this`graceUsed
      ensures reason.Fine? || reason.NoChanges? || FromVerify(reason)
      ensures !pol.soft ==> (reason.Fine? <==> VerifyClears(w, lastRunFailed))
      ensures reason.NoChanges? <==> NoDiff(w)
      ensures (reason.NoChanges? ==> noContinue) && (reason.Fine? ==> !noContinue)
      ensures reason.Fine? <==> !NoDiff(w) && !Rejects(w, lastRunFailed, old(softFeedback))
      ensures FromVerify(reason) ==> reason == StageReason(w) && (noContinue <==> Barred(w, old(graceUsed)))
      ensures softFeedback ==
              old(softFeedback) + if pol.soft && !NoDiff(w) && StageFails(w, lastRunFailed) then 1 else 0
      ensures graceUsed == (old(graceUsed) || (FromVerify(reason) && !noContinue && OldFailure(w)))
      ensures closing ==
              if !NoDiff(w) && !BaselineDecides(w) && pol.cmd != "" && LastGreen(w.verify, false)
              then Some(Closing(DecidingOut(w.verify).value,
                                if w.preVerifyTree.Some? then w.preVerifyTree.value else ""))
              else old(closing)
      ensures softRejected == old(softRejected) + if pol.soft && FromVerify(reason) then 1 else 0
      ensures softRejected <= softFeedback && softRejected <= AUTO_VERIFY_MAX_FEEDBACK
      ensures FromVerify(reason) && !noContinue && base.red && LooksLike(reason, base.out) ==>
                !old(graceUsed) && graceUsed
      ensures old(graceUsed) ==> graceUsed
      ensures executions == old(executions) +
                            if reason.NoChanges? || BaselineDecides(w) || pol.cmd == "" then []
                              else Executed(w.verify, false)
    {
      hide Executed, Retried, DecidingOut, VerifyReason, LastGreen, LooksLike, Accounts, Review.AllSound,
        Review.OpenIndices;
      noContinue := false;
      if pol.requireDiff && Unchanged(w.diffTree) {
        return NoChanges, true;
      }
      if runBaseTree != "" && (pol.soft || (!pol.skipBaseline && base.measured)) {
        if w.completionTree == Some(runBaseTree) {
          if pol.soft && !base.measured {
            return Fine, false;
          }
          if !base.red {
            return Fine, false;
          }
          var rejected;
          rejected, noContinue := VerifyCompletionFailure(DidNotPass(base.out), Some(base.out));
          return if rejected then DidNotPass(base.out) else Fine, noContinue;
        }
      }
      var out;
      reason, out := VerifyTermination(lastRunFailed, w.verify);
      if reason.Fine? && pol.cmd != "" {
        closing := Some(Closing(out.value, if w.preVerifyTree.Some? then w.preVerifyTree.value else ""));
      }
      var rejected;
      rejected, noContinue := VerifyCompletionFailure(reason, out);
      return if rejected then reason else Fine, noContinue;
    }

    /** A run that ends unverified is still to be reviewed: it may be, and no review has looked at it yet. */
    predicate Salvageable(canceled: bool, m: Option<Review.Memory>) {
      && pol.reviewUnverified && !canceled && review != null
      && m.Some? && !m.value.skip && m.value.rounds == 0 && m.value.findings == []
    }

    /**
     What the review remembers after it had the chance of one advisory look: a diff that cannot be read
     or is blank is noted unless the review already has a status, and any other is ruled on.
    */
    ghost predicate Salvages(canceled: bool, diff: Review.Diff, w: Review.ReviewWorld, m: Option<Review.Memory>,
            m': Option<Review.Memory>)
    {
      if !Salvageable(canceled, m) then m' == m
      else if diff.SomeDiff? then
        m'.Some? && exists o: Review.Ruling :: review.Ruled(false, w, m.value.(salvage := true), o, m'.value)
      else if !m.value.status.Unset? then m' == m
      else m' == Some(m.value.(skip := true, status := if diff.DiffFailed? then Review.Unavailable else Review.Unset))
    }

    /** One advisory review for a run that ends unverified; it never changes how the run ends. */
    method ReviewUnverified(canceled: bool, diff: Review.Diff, w: Review.ReviewWorld)
      requires Valid()
      modifies review, spend
      ensures Valid()
      ensures Salvages(canceled, diff, w, old(Remembered()).review, Remembered().review)
      ensures Remembered() == old(Remembered()).(review := Remembered().review)
      ensures spend != null ==> old(spend.charges) <= spend.charges
      ensures review != null ==> review.rounds == old(review.rounds) || (old(review.rounds) == 0 && review.rounds == 1)
      ensures review != null && !pol.reviewUnverified ==> unchanged(review)
    {
      if !pol.reviewUnverified || review == null {
        return;
      }
      if review.skip || review.rounds > 0 || review.findings != [] {
        return;
      }
      if canceled {
        return;
      }
      match diff {
        case DiffFailed(_) =>
          if review.status.Unset? {
            review.skip := true;
            review.status := Review.Unavailable;
          }
        case BlankDiff =>
          if review.status.Unset? {
            review.skip := true;
          }
        case SomeDiff =>
          review.salvage := true;
          var _ := review.ReviewFinish(false, w, spend);
      }
    }

    /** The rounds that are left to a run that goes on. */
    ghost predicate RoundsLeft()
      reads review
    {
      review != null ==> review.rounds == 0 || review.rounds < review.maxRounds
    }

    ghost predicate NotBlocked()
      reads review
    {
      review != null ==> !review.blocked
    }

    /** The review had no part in this finish, or let it through. */
    ghost predicate ReviewPassed()
      reads this
    {
      review == null || ruling == Some(Review.Pass)
    }

    /** The verify stage of a finish. */
    method VerifyFinish(input: FinishInput, w: FinishWorld)
      returns (outcome: RunOutcome, reason: Reason, noContinue: bool)
      requires Valid()
      modifies this`executions, this`closing, this`softFeedback, this`softRejected, this`infraSignature, this`graceUsed
      ensures Valid()
      ensures StageDecided(input, w, old(Remembered()), outcome, reason, noContinue)
      ensures Remembered() == old(Remembered()).(softFeedback := softFeedback, graceUsed := graceUsed)
      ensures softFeedback == old(softFeedback) + if CountsSoft(input, w) then 1 else 0
      ensures graceUsed == (old(graceUsed) || (FromVerify(reason) && !noContinue && OldFailure(w)))
      ensures softRejected == old(softRejected) + if pol.soft && FromVerify(reason) then 1 else 0
      ensures !noContinue && base.red && LooksLike(reason, base.out) ==> !old(graceUsed) && graceUsed
      ensures reason.Fine? && !input.trusted ==>
                executions ==
                old(executions) + if BaselineDecides(w) || pol.cmd == "" then [] else Executed(w.verify, false)
    {
      var safety := VerifySafety(w.fence, w.scope);
      outcome, reason, noContinue := safety.0, safety.1, safety.2;
      if !reason.Fine? {
        return;
      }
      if input.trusted {
        if pol.requireDiff && Unchanged(w.diffTree) {
          return Unverified, NoChanges, true;
        }
        return;
      }
      reason, noContinue := VerifyCompletion(input.lastRunFailed, w);
      return Unverified, reason, noContinue;
    }

    /** The verify stage holds the finish up. */
    predicate HeldUp(input: FinishInput, w: FinishWorld, softFeedback0: nat) {
      NoDiff(w) || (!input.trusted && Rejects(w, input.lastRunFailed, softFeedback0))
    }

    /** A soft gate counts the failure. */
    predicate CountsSoft(input: FinishInput, w: FinishWorld) {
      w.fence.Clean? && w.scope.Clean? && !input.trusted && pol.soft && !NoDiff(w) && StageFails(w, input.lastRunFailed)
    }

    /** The finish is sent back over the verify stage: there are turns left, and nothing bars the run from going on. */
    predicate VerifySendsBack(input: FinishInput, w: FinishWorld, m: Memory) {
      && w.fence.Clean? && w.scope.Clean? && !w.canceled && pol.verifyContinue && input.canContinue
      && !input.trusted && !NoDiff(w) && Rejects(w, input.lastRunFailed, m.softFeedback) && !Barred(w, m.graceUsed)
    }

    /** What the verify stage of a finish comes to. */
    predicate StageDecided(input: FinishInput, w: FinishWorld, m: Memory, outcome: RunOutcome, reason: Reason,
            noContinue: bool) {
      && (reason.Fine? ==> w.fence.Clean? && w.scope.Clean?)
      && (outcome.ScopeViolation? <==> w.fence.Clean? && w.scope.Violated?)
      && (!outcome.ScopeViolation? ==> outcome.Unverified?)
      && (w.fence.Clean? && w.scope.Clean? ==>
           && (reason.NoChanges? <==> NoDiff(w)) && (reason.Fine? <==> !HeldUp(input, w, m.softFeedback))
           && (reason.Fine? || reason.NoChanges? || FromVerify(reason)))
      && (FromVerify(reason) ==>
           && w.fence.Clean? && w.scope.Clean? && !input.trusted && reason == StageReason(w)
           && (noContinue <==> Barred(w, m.graceUsed)))
      && (!reason.Fine? && !FromVerify(reason) && !outcome.ScopeViolation? ==> noContinue)
    }

    /** A hard gate holds an untrusted finish up exactly unless the stage clears. */
    lemma HeldUpIff(input: FinishInput, w: FinishWorld, softFeedback0: nat)
      requires !pol.soft
      ensures HeldUp(input, w, softFeedback0) <==>
              if input.trusted then NoDiff(w) else !VerifyClears(w, input.lastRunFailed)
    {
      hide BaselineDecides, LastGreen;
    }

    /** Where a finish goes from the verify stage. */
    lemma FromTheStage(input: FinishInput, w: FinishWorld, m: Memory, outcome: RunOutcome, reason: Reason,
            noContinue: bool)
      requires StageDecided(input, w, m, outcome, reason, noContinue)
      ensures outcome.ScopeViolation? || w.canceled ==> !MeetsRepro(input, w, m) && !VerifySendsBack(input, w, m)
      ensures !outcome.ScopeViolation? && !w.canceled ==>
                && (MeetsRepro(input, w, m) <==> reason.Fine?)
                && (VerifySendsBack(input, w, m) <==>
                    !reason.Fine? && pol.verifyContinue && input.canContinue && !noContinue)
                && (VerifySendsBack(input, w, m) ==> reason == StageReason(w) && FromVerify(reason))
      ensures reason.Fine? ==> w.fence.Clean? && w.scope.Clean? && !FromVerify(reason)
      ensures (outcome.ScopeViolation? <==> w.fence.Clean? && w.scope.Violated?)
              && (!outcome.ScopeViolation? ==> outcome.Unverified?)
    {
      hide Rejects, NoDiff, StageReason, Barred;
    }

    /** The finish gets as far as the repro. */
    predicate MeetsRepro(input: FinishInput, w: FinishWorld, m: Memory) {
      w.fence.Clean? && w.scope.Clean? && !w.canceled && !HeldUp(input, w, m.softFeedback)
    }

    /** The finish is sent back over the repro. */
    predicate ReproSendsBack(input: FinishInput, w: FinishWorld, repro0: Repro.State, m: Memory) {
      MeetsRepro(input, w, m) && ReproRetries(input, w, repro0)
    }

    /** The repro stands against the finish, and the run may do something about it. */
    predicate ReproRetries(input: FinishInput, w: FinishWorld, repro0: Repro.State) {
      && !Repro.Satisfied(pol.reproFirst, repro0, w.repro) && input.canContinue
      && (repro0.Undeclared? || pol.verifyContinue)
    }

    /** The finish gets as far as the review. */
    predicate MeetsReview(input: FinishInput, w: FinishWorld, repro0: Repro.State, m: Memory) {
      && MeetsRepro(input, w, m) && Repro.Satisfied(pol.reproFirst, repro0, w.repro)
      && !input.blank && !input.trusted && review != null
    }

    /**
     The decision that is due at a finish when the gates remember m, with the ruling of the review if it
     got that far, and what the gates remember if the run goes on.
    */
    ghost predicate Decides(input: FinishInput, w: FinishWorld, repro0: Repro.State, m: Memory,
            ruling: Option<Review.Ruling>, d: Decision, m': Memory)
    {
      && (ruling.Some? <==> MeetsReview(input, w, repro0, m))
      && (ruling.Some? ==>
           && m.review.Some? && m'.review.Some?
           && review.Ruled(input.canContinue, w.review, m.review.value, ruling.value, m'.review.value))
      && (d.Accept? <==>
          && MeetsRepro(input, w, m) && Repro.Satisfied(pol.reproFirst, repro0, w.repro)
          && !input.blank && (input.trusted || review == null || ruling == Some(Review.Pass)))
      && (d.Accept? ==> d.answer == input.answer)
      && (d.Continue? <==>
          || VerifySendsBack(input, w, m) || ReproSendsBack(input, w, repro0, m)
          || (ruling.Some? && ruling.value.Feedback?))
      && (VerifySendsBack(input, w, m) ==> d.why == StageReason(w))
      && (ReproSendsBack(input, w, repro0, m) ==>
           d.why == ReproObjects(if repro0.Undeclared? then Repro.ReproMissing else Repro.ReproRed))
      && (ruling.Some? && ruling.value.Feedback? ==>
           d.why == ReviewAdvises(ruling.value.blockers, ruling.value.advisories))
      && (ruling.Some? && ruling.value.Block? ==> d.why == ReviewBlocks(ruling.value.why))
      && (d.Stop? ==>
           && (d.outcome.ScopeViolation? <==> w.fence.Clean? && w.scope.Violated?)
           && (!d.outcome.ScopeViolation? ==> (d.outcome.Canceled? <==> w.canceled))
           && (!d.outcome.ScopeViolation? && !d.outcome.Canceled? ==> d.outcome.Unverified?)
           && d.answer == if d.outcome.Unverified? then input.answer else "")
      && m'.softFeedback == m.softFeedback + (if CountsSoft(input, w) then 1 else 0)
      && (!d.Stop? ==> m'.graceUsed == (m.graceUsed || (VerifySendsBack(input, w, m) && OldFailure(w))))
      && (!d.Stop? && ruling.None? ==> m'.review == m.review)
      && (d.Stop? && ruling.None? ==> StopLeaves(d.outcome, w, m, m'))
    }

    /** A finish that stops the run before the review: an unverified run may have one advisory look. */
    ghost predicate StopLeaves(outcome: RunOutcome, w: FinishWorld, m: Memory, m': Memory) {
      if outcome.Unverified? then Salvages(w.salvageCanceled, w.salvageDiff, w.salvage, m.review, m'.review)
      else m'.review == m.review
    }

    ghost function Remembered(): Memory
      reads this, review
    {
      Memory(softFeedback, graceUsed, if review == null then None else Some(review.Remembered()))
    }

    /** Nothing before the review speaks against the finish. */
    ghost predicate ClearBeforeReview(input: FinishInput, w: FinishWorld, repro0: Repro.State)
    {
      && w.fence.Clean? && w.scope.Clean? && !w.canceled
      && (input.trusted ==> !(pol.requireDiff && Unchanged(w.diffTree)))
      && (!input.trusted && !pol.soft ==> VerifyClears(w, input.lastRunFailed))
      && Repro.Satisfied(pol.reproFirst, repro0, w.repro)
      && !input.blank
    }

    /**
     The decision at a finish.  With a hard gate the finish is accepted exactly when every stage
     passes in this same finish; a soft verify gate may also pass because its patience is spent.
    */
    method Finish(input: FinishInput, w: FinishWorld) returns (d: Decision)
      requires Valid() && RoundsLeft() && NotBlocked()
      modifies this, review, repro, spend
      ensures Valid()
      ensures spend != null ==> old(spend.charges) <= spend.charges
      ensures Decides(input, w, old(repro.state), old(Remembered()), ruling, d, Remembered())
      ensures d.Continue? ==> input.canContinue && RoundsLeft()
      ensures d.Continue? || d.Accept? ==> NotBlocked()
      ensures review != null ==> review.rounds <= old(review.rounds) + 1
      ensures d.Accept? && !input.trusted && review != null && Review.Reached(old(review.skip), w.review) ==>
                review.rounds == old(review.rounds) + 1 && review.pending == []
      ensures identicalFedBack ==
              old(identicalFedBack) + if d.Continue? && base.red && LooksLike(d.why, base.out) then 1 else 0
      ensures !d.Accept? && pol.soft && FromVerify(d.why) ==> softRejected == old(softRejected) + 1
      ensures Repro.Advances(old(repro.state), repro.state)
      ensures d.Accept? && !input.trusted ==>
                executions ==
                old(executions) + if BaselineDecides(w) || pol.cmd == "" then [] else Executed(w.verify, false)
    {
      hide *;
      ghost var m := Remembered();
      MemoryIs();
      RulingOpens();
      GraceMeans();
      var outcome, reason, noContinue := VerifyFinish(input, w);
      FromTheStage(input, w, m, outcome, reason, noContinue);
      ReasonsDiffer(reason);
      MemoryIs();
      if outcome.ScopeViolation? || w.canceled || !reason.Fine? {
        Repro.AdvancesNowhere(repro.state);
        d := Refuse(input, w, outcome, reason, noContinue, m);
        return;
      }
      ghost var repro0 := repro.state;
      d := FinishAfterVerify(input, w);
      MemoryIs();
      PassedIs();
      if !d.Accept? {
        ReasonsDiffer(d.why);
      }
      GetsPast(input, w, repro0, m, ruling, d, Remembered());
    }

    /** A finish that gets no further than the verify stage: the run goes on if it may, and stops otherwise. */
    method Refuse(input: FinishInput, w: FinishWorld, outcome: RunOutcome, reason: Reason, noContinue: bool,
            ghost m: Memory)
      returns (d: Decision)
      requires Valid() && StageDecided(input, w, m, outcome, reason, noContinue)
      requires outcome.ScopeViolation? || w.canceled || !reason.Fine?
      requires !noContinue && base.red && LooksLike(reason, base.out) ==> identicalFedBack == 0 && graceUsed
      requires Remembered().review == m.review
      requires Remembered().softFeedback == m.softFeedback + if CountsSoft(input, w) then 1 else 0
      requires Remembered().graceUsed == (m.graceUsed || (FromVerify(reason) && !noContinue && OldFailure(w)))
      modifies this`identicalFedBack, review, spend
      ensures Valid() && !d.Accept?
      ensures spend != null ==> old(spend.charges) <= spend.charges
      ensures Decides(input, w, repro.state, m, None, d, Remembered())
      ensures d.Continue? ==> input.canContinue && (review != null ==> unchanged(review))
      ensures review != null ==> review.rounds <= old(review.rounds) + 1
      ensures identicalFedBack ==
              old(identicalFedBack) + if d.Continue? && base.red && LooksLike(d.why, base.out) then 1 else 0
      ensures d.why == reason || !FromVerify(d.why)
    {
      hide *;
      FromTheStage(input, w, m, outcome, reason, noContinue);
      ReasonsDiffer(reason);
      if outcome.ScopeViolation? {
        StopsEarly(input, w, repro.state, m, Stop(ScopeViolation, reason, ""), Remembered());
        return Stop(ScopeViolation, reason, "");
      }
      if w.canceled {
        StopsEarly(input, w, repro.state, m, Stop(Canceled, RunCanceled, ""), Remembered());
        return Stop(Canceled, RunCanceled, "");
      }
      if pol.verifyContinue && input.canContinue && !noContinue {
        NotesFeedback(reason);
        SendsBack(input, w, repro.state, m, Continue(reason), Remembered());
        return Continue(reason);
      }
      ReviewUnverified(w.salvageCanceled, w.salvageDiff, w.salvage);
      StopsEarly(input, w, repro.state, m, Stop(outcome, reason, input.answer), Remembered());
      return Stop(outcome, reason, input.answer);
    }

    /** A finish that stops before the repro. */
    lemma StopsEarly(input: FinishInput, w: FinishWorld, repro0: Repro.State, m: Memory, d: Decision, m': Memory)
      requires !MeetsRepro(input, w, m) && !VerifySendsBack(input, w, m) && d.Stop?
      requires (d.outcome.ScopeViolation? <==> w.fence.Clean? && w.scope.Violated?)
      requires !d.outcome.ScopeViolation? ==> (d.outcome.Canceled? <==> w.canceled)
      requires !d.outcome.ScopeViolation? && !d.outcome.Canceled? ==> d.outcome.Unverified?
      requires d.answer == if d.outcome.Unverified? then input.answer else ""
      requires m'.softFeedback == m.softFeedback + (if CountsSoft(input, w) then 1 else 0)
      requires d.outcome.Unverified? ==> Salvages(w.salvageCanceled, w.salvageDiff, w.salvage, m.review, m'.review)
      requires !d.outcome.Unverified? ==> m'.review == m.review
      ensures Decides(input, w, repro0, m, None, d, m')
    {
      hide Salvages, MeetsRepro, VerifySendsBack, CountsSoft, Repro.Satisfied, ReproRetries, OldFailure, StageReason;
    }

    /** A finish that is sent back over the verify stage. */
    lemma SendsBack(input: FinishInput, w: FinishWorld, repro0: Repro.State, m: Memory, d: Decision, m': Memory)
      requires VerifySendsBack(input, w, m) && !MeetsRepro(input, w, m) && d == Continue(StageReason(w))
      requires m'.softFeedback == m.softFeedback + (if CountsSoft(input, w) then 1 else 0)
      requires m'.graceUsed == (m.graceUsed || OldFailure(w)) && m'.review == m.review
      ensures Decides(input, w, repro0, m, None, d, m')
    {
      hide MeetsRepro, VerifySendsBack, CountsSoft, Repro.Satisfied, ReproRetries, OldFailure, StageReason, StopLeaves;
    }

    /** A finish that gets past the verify stage. */
    lemma GetsPast(input: FinishInput, w: FinishWorld, repro0: Repro.State, m: Memory, ruled: Option<Review.Ruling>,
            d: Decision, m': Memory)
      requires MeetsRepro(input, w, m) && !VerifySendsBack(input, w, m)
      requires ruled.Some? <==>
               Repro.Satisfied(pol.reproFirst, repro0, w.repro) && !input.blank && !input.trusted && review != null
      requires ruled.Some? ==>
                 && m.review.Some? && m'.review.Some?
                 && review.Ruled(input.canContinue, w.review, m.review.value, ruled.value, m'.review.value)
      requires d.Accept? <==>
               && Repro.Satisfied(pol.reproFirst, repro0, w.repro) && !input.blank
               && (input.trusted || review == null || ruled == Some(Review.Pass))
      requires d.Accept? ==> d.answer == input.answer
      requires d.Continue? <==> ReproRetries(input, w, repro0) || (ruled.Some? && ruled.value.Feedback?)
      requires ReproRetries(input, w, repro0) ==>
                 d.why == ReproObjects(if repro0.Undeclared? then Repro.ReproMissing else Repro.ReproRed)
      requires ruled.Some? && ruled.value.Feedback? ==>
                 d.why == ReviewAdvises(ruled.value.blockers, ruled.value.advisories)
      requires ruled.Some? && ruled.value.Block? ==> d.why == ReviewBlocks(ruled.value.why)
      requires d.Stop? ==> d.outcome.Unverified? && d.answer == input.answer
      requires w.fence.Clean? && w.scope.Clean? && !w.canceled
      requires m'.softFeedback == m.softFeedback + (if CountsSoft(input, w) then 1 else 0)
               && m'.graceUsed == m.graceUsed
      requires !d.Stop? && ruled.None? ==> m'.review == m.review
      requires d.Stop? && ruled.None? ==> Salvages(w.salvageCanceled, w.salvageDiff, w.salvage, m.review, m'.review)
      ensures Decides(input, w, repro0, m, ruled, d, m')
    {
      hide MeetsRepro, VerifySendsBack, CountsSoft, Repro.Satisfied, ReproRetries, OldFailure, StageReason, Salvages,
        Review.ReviewState.Ruled;
    }

    lemma PassedIs()
      ensures ReviewPassed() <==> review == null || ruling == Some(Review.Pass)
    {
    }

    lemma MemoryIs()
      ensures Remembered() ==
              Memory(softFeedback, graceUsed, if review == null then None else Some(review.Remembered()))
    {
    }

    /** No review has ruled in this finish yet. */
    ghost method RulingOpens()
      requires Valid()
      modifies this`ruling
      ensures Valid() && ruling.None? && Remembered() == old(Remembered())
    {
      ruling := None;
    }

    lemma GraceMeans()
      requires Valid()
      ensures !graceUsed ==> identicalFedBack == 0
    {
      hide WellMeasured, Accounts;
    }

    lemma ReasonsDiffer(reason: Reason)
      ensures FromVerify(reason) ==> !reason.Fine? && !reason.RunCanceled?
      ensures FromVerify(reason) ==>
                !reason.ReproObjects? && !reason.EmptyAnswer? && !reason.ReviewBlocks? && !reason.ReviewAdvises?
      ensures !FromVerify(RunCanceled)
    {
    }

    /** Bookkeeping for a finish that is sent back. */
    ghost method NotesFeedback(reason: Reason)
      requires Valid() && (base.red && LooksLike(reason, base.out) ==> identicalFedBack == 0 && graceUsed)
      modifies this`identicalFedBack
      ensures Valid() && Remembered() == old(Remembered())
      ensures identicalFedBack == old(identicalFedBack) + if base.red && LooksLike(reason, base.out) then 1 else 0
    {
      hide WellMeasured, LooksLike, Accounts;
      if base.red && LooksLike(reason, base.out) {
        identicalFedBack := identicalFedBack + 1;
      }
    }

    /** The stages after verify: repro, the answer itself, and the review. */
    method FinishAfterVerify(input: FinishInput, w: FinishWorld) returns (d: Decision)
      requires Valid() && RoundsLeft() && NotBlocked() && !w.canceled
      modifies this`ruling, review, repro, spend
      ensures Valid()
      ensures spend != null ==> old(spend.charges) <= spend.charges
      ensures d.Accept? <==>
              Repro.Satisfied(pol.reproFirst, old(repro.state), w.repro) && !input.blank
              && (input.trusted || ReviewPassed())
      ensures d.Accept? ==> d.answer == input.answer
      ensures ruling.Some? <==>
              Repro.Satisfied(pol.reproFirst, old(repro.state), w.repro) && !input.blank && !input.trusted
                && review != null
      ensures ruling.Some? ==>
                review.Ruled(input.canContinue, w.review, old(review.Remembered()), ruling.value, review.Remembered())
      ensures d.Continue? <==> ReproRetries(input, w, old(repro.state)) || (ruling.Some? && ruling.value.Feedback?)
      ensures ReproRetries(input, w, old(repro.state)) ==>
                d.why == ReproObjects(if old(repro.state).Undeclared? then Repro.ReproMissing else Repro.ReproRed)
      ensures ruling.Some? && ruling.value.Feedback? ==>
                d.why == ReviewAdvises(ruling.value.blockers, ruling.value.advisories)
      ensures ruling.Some? && ruling.value.Block? ==> d.why == ReviewBlocks(ruling.value.why)
      ensures !d.Stop? && ruling.None? && review != null ==> review.Remembered() == old(review.Remembered())
      ensures d.Stop? && ruling.None? ==>
                Salvages(w.salvageCanceled, w.salvageDiff, w.salvage, old(Remembered()).review, Remembered().review)
      ensures d.Continue? ==> input.canContinue && RoundsLeft()
      ensures d.Continue? || d.Accept? ==> NotBlocked()
      ensures review != null ==> review.rounds <= old(review.rounds) + 1
      ensures d.Accept? && !input.trusted && review != null && Review.Reached(old(review.skip), w.review) ==>
                review.rounds == old(review.rounds) + 1 && review.pending == []
      ensures d.Stop? ==> d.outcome.Unverified? && d.answer == input.answer
      ensures !d.Accept? ==> d.why.ReproObjects? || d.why.EmptyAnswer? || d.why.ReviewBlocks? || d.why.ReviewAdvises?
      ensures !d.Accept? ==> !LooksLike(d.why, base.out)
      ensures Repro.Advances(old(repro.state), repro.state)
    {
      hide Repro.Satisfied, WellMeasured, Review.Reached, Review.ReviewState.Ruled, Review.ReviewState.Remembered,
        Review.AllSound, Review.OpenIndices, Accounts;
      ruling := None;
      var objection := repro.ReproFinish(pol.reproFirst, w.repro);
      if objection.Some? {
        if input.canContinue && (objection.value.ReproMissing? || pol.verifyContinue) {
          return Continue(ReproObjects(objection.value));
        }
        ReviewUnverified(w.salvageCanceled, w.salvageDiff, w.salvage);
        return Stop(Unverified, ReproObjects(objection.value), input.answer);
      }
      d := FinishOnReview(input, w);
    }

    /** The last stages: the answer itself, and the review. */
    method FinishOnReview(input: FinishInput, w: FinishWorld) returns (d: Decision)
      requires Valid() && RoundsLeft() && NotBlocked() && ruling.None?
      modifies this`ruling, review, spend
      ensures Valid()
      ensures spend != null ==> old(spend.charges) <= spend.charges
      ensures d.Accept? <==> !input.blank && (input.trusted || ReviewPassed())
      ensures d.Accept? ==> d.answer == input.answer
      ensures ruling.Some? <==> !input.blank && !input.trusted && review != null
      ensures ruling.Some? ==>
                review.Ruled(input.canContinue, w.review, old(review.Remembered()), ruling.value, review.Remembered())
      ensures d.Continue? <==> ruling.Some? && ruling.value.Feedback?
      ensures ruling.Some? && ruling.value.Feedback? ==>
                d.why == ReviewAdvises(ruling.value.blockers, ruling.value.advisories)
      ensures ruling.Some? && ruling.value.Block? ==> d.why == ReviewBlocks(ruling.value.why)
      ensures !d.Stop? && ruling.None? && review != null ==> review.Remembered() == old(review.Remembered())
      ensures d.Stop? && ruling.None? ==>
                Salvages(w.salvageCanceled, w.salvageDiff, w.salvage, old(Remembered()).review, Remembered().review)
      ensures d.Continue? ==> input.canContinue && RoundsLeft()
      ensures d.Continue? || d.Accept? ==> NotBlocked()
      ensures review != null ==> review.rounds <= old(review.rounds) + 1
      ensures d.Accept? && !input.trusted && review != null && Review.Reached(old(review.skip), w.review) ==>
                review.rounds == old(review.rounds) + 1 && review.pending == []
      ensures d.Stop? ==> d.outcome.Unverified? && d.answer == input.answer
      ensures !d.Accept? ==> d.why.EmptyAnswer? || d.why.ReviewBlocks? || d.why.ReviewAdvises?
    {
      hide WellMeasured, Review.Reached, Review.ReviewState.Ruled, Review.ReviewState.Remembered, Review.AllSound,
        Review.OpenIndices, Review.Settled, Review.FeedbackDue, Review.RoundDone, Review.RoundCharges,
        Review.RoundUsage, Review.IsInfrastructure, Accounts;
      if input.blank {
        ReviewUnverified(w.salvageCanceled, w.salvageDiff, w.salvage);
        return Stop(Unverified, EmptyAnswer, input.answer);
      }
      if !input.trusted && review != null {
        var r := review.ReviewFinish(input.canContinue, w.review, spend);
        ruling := Some(r);
        match r {
          case Feedback(b, a) => return Continue(ReviewAdvises(b, a));
          case Block(why) => return Stop(Unverified, ReviewBlocks(why), input.answer);
          case Pass =>
        }
      }
      return Accept(input.answer);
    }

    /** Everything an upgrade needs. */
    ghost predicate Upgradable(w: UpgradeWorld, repro0: Repro.State) {
      && w.scope.Clean? && w.fence.Clean? && pol.cmd != ""
      && !(pol.requireDiff && Unchanged(w.diffTree)) && !Unchanged(w.preVerifyTree)
      && LastGreen(w.verify, true) && Repro.Satisfied(pol.reproFirst, repro0, w.repro)
    }

    /** A cut run that has not answered speaks through its verification; the quotes stand for the source's quoting. */
    function RescuedAnswer(answer: string): string {
      if answer == "" then "task verified complete (\"" + pol.cmd + "\" passed)" else answer
    }

    /** The upgrade stops at require-diff. */
    predicate NothingChanged(w: UpgradeWorld) {
      pol.requireDiff && Unchanged(w.diffTree)
    }

    /** The command failed at the end of a cut run, and not over a fault that was never tried again. */
    predicate Refuted(w: VerifyWorld) {
      var ran := Executed(w, true);
      && ran != [] && !ran[|ran| - 1].error && ran[|ran| - 1].out.exit.Failed?
      && (|ran| == 2 || w.exec1.out.infra == "")
    }

    /** The fault that is on record after the upgrade's verify runs: the last one seen, and none after a green retry. */
    function FaultAfter(w: VerifyWorld, before: string): string {
      if w.canceled1 || w.exec1.error || !w.exec1.out.exit.Failed? || w.exec1.out.infra == "" then before
      else if w.canceled2 || w.exec2.error then w.exec1.out.infra
      else if !w.exec2.out.exit.Failed? then ""
      else if w.exec2.out.infra != "" then w.exec2.out.infra else w.exec1.out.infra
    }

    /** A cut run that is not rescued may have one advisory look: its verify command failed, or its repro objects. */
    predicate UpgradeLooks(w: UpgradeWorld, repro0: Repro.State) {
      && w.scope.Clean? && w.fence.Clean? && pol.cmd != "" && !NothingChanged(w) && !Unchanged(w.preVerifyTree)
      && (Refuted(w.verify) || ReproHolds(w, repro0))
    }

    /** The upgrade gets as far as the repro, which stands against it. */
    predicate ReproHolds(w: UpgradeWorld, repro0: Repro.State) {
      && pol.cmd != "" && w.fence.Clean? && !Unchanged(w.preVerifyTree) && LastGreen(w.verify, true)
      && !Repro.Satisfied(pol.reproFirst, repro0, w.repro)
    }

    /** How a cut run ends that is not rescued. */
    function NotRescued(o: RunOutcome, w: UpgradeWorld, repro0: Repro.State): RunOutcome {
      if w.scope.Violated? then ScopeViolation
      else if w.scope.Clean? && (NothingChanged(w) || ReproHolds(w, repro0)) then Unverified
      else o
    }

    /**
     A killed or capped run becomes Answered exactly when the workspace clears the whole bar; the
     loop is over, so the review cannot ask for repairs any more.
    */
    method UpgradeIfVerified(res: Result, w: UpgradeWorld) returns (out: Result)
      requires Valid() && RoundsLeft() && NotBlocked() && !res.outcome.Answered?
      modifies this, review, repro, spend
      ensures Valid()
      ensures out.outcome.Answered? <==> Upgradable(w, old(repro.state)) && ReviewPassed()
      ensures out.outcome.Answered? ==> out.rescuedFrom == Some(res.outcome) && NotBlocked()
      ensures out.outcome.Answered? ==> out.answer == RescuedAnswer(res.answer)
      ensures !out.outcome.Answered? ==> out == res.(outcome := out.outcome)
      ensures !out.outcome.Answered? ==> out.outcome == NotRescued(res.outcome, w, old(repro.state))
      ensures review != null ==> review.rounds <= old(review.rounds) + 1
      ensures identicalFedBack == old(identicalFedBack) && softRejected == old(softRejected)
      ensures executions == old(executions) || executions == old(executions) + Executed(w.verify, true)
      ensures out.outcome.Answered? ==> executions == old(executions) + Executed(w.verify, true)
      ensures out.outcome.Answered? && res.answer == "" ==>
                out.answer == "task verified complete (\"" + pol.cmd + "\" passed)"
      ensures out.outcome.Answered? && res.answer != "" ==> out.answer == res.answer
      ensures ruling.Some? <==> Upgradable(w, old(repro.state)) && review != null
      ensures ruling.None? ==> if UpgradeLooks(w, old(repro.state)) then
                  Salvages(w.salvageCanceled, w.salvageDiff, w.salvage, old(Remembered()).review, Remembered().review)
                else Remembered().review == old(Remembered()).review
      ensures Upgradable(w, old(repro.state)) && review != null ==>
                && review.Ruled(false, w.review, old(review.Remembered()), ruling.value, review.Remembered())
      ensures out.outcome.Answered? ==>
                closing == Some(Closing(Executed(w.verify, true)[|Executed(w.verify, true)| - 1].out,
                                        if w.preVerifyTree.Some? then w.preVerifyTree.value else ""))
      ensures Repro.Advances(old(repro.state), repro.state)
    {
      hide Repro.Satisfied, WellMeasured, LastGreen, Executed, Refuted, Salvages, Accounts, Review.ReviewState.Ruled,
        Review.ReviewState.Remembered;
      ruling := None;
      if !w.scope.Clean? {
        return if w.scope.Unverifiable? then res else res.(outcome := ScopeViolation);
      }
      if pol.requireDiff && Unchanged(w.diffTree) {
        return res.(outcome := Unverified);
      }
      if pol.cmd == "" || !w.fence.Clean? || (runBaseTree != "" && w.preVerifyTree == Some(runBaseTree)) {
        return res;
      }
      var green, out0 := VerifyForUpgrade(w);
      if !green {
        return res;
      }
      closing := Some(Closing(out0, if w.preVerifyTree.Some? then w.preVerifyTree.value else ""));
      out := UpgradeVerified(res, w);
    }

    /** The stages after a green verify. */
    method UpgradeVerified(res: Result, w: UpgradeWorld) returns (out: Result)
      requires Valid() && RoundsLeft() && NotBlocked() && !res.outcome.Answered?
      modifies this`ruling, review, repro, spend
      ensures Valid()
      ensures out.outcome.Answered? <==> Repro.Satisfied(pol.reproFirst, old(repro.state), w.repro) && ReviewPassed()
      ensures out.outcome.Answered? ==>
                NotBlocked() && out.rescuedFrom == Some(res.outcome) && out.answer == RescuedAnswer(res.answer)
      ensures !out.outcome.Answered? ==>
                out == if Repro.Satisfied(pol.reproFirst, old(repro.state), w.repro) then res
                  else res.(outcome := Unverified)
      ensures review != null ==> review.rounds <= old(review.rounds) + 1
      ensures ruling.Some? <==> Repro.Satisfied(pol.reproFirst, old(repro.state), w.repro) && review != null
      ensures !Repro.Satisfied(pol.reproFirst, old(repro.state), w.repro) ==>
                Salvages(w.salvageCanceled, w.salvageDiff, w.salvage, old(Remembered()).review, Remembered().review)
      ensures Repro.Satisfied(pol.reproFirst, old(repro.state), w.repro) && review != null ==>
                && review.Ruled(false, w.review, old(review.Remembered()), ruling.value, review.Remembered())
      ensures Repro.Advances(old(repro.state), repro.state)
    {
      hide Repro.Satisfied, WellMeasured, Accounts, Salvages, Review.Reached, Review.ReviewState.Ruled,
        Review.ReviewState.Remembered;
      ruling := None;
      var objection := repro.ReproFinish(pol.reproFirst, w.repro);
      if objection.Some? {
        ReviewUnverified(w.salvageCanceled, w.salvageDiff, w.salvage);
        return res.(outcome := Unverified);
      }
      if review != null {
        var r := review.ReviewFinish(false, w.review, spend);
        ruling := Some(r);
        if r.Block? {
          return res;
        }
      }
      return Result(Answered, RescuedAnswer(res.answer), Some(res.outcome));
    }

    /** The verify command at the end of a killed run; a failure may have one advisory look. */
    method VerifyForUpgrade(w: UpgradeWorld) returns (green: bool, out: RunOutput)
      requires Valid() && RoundsLeft()
      modifies this`executions, this`infraSignature, review, spend
      ensures Valid()
      ensures green <==> LastGreen(w.verify, true)
      ensures green ==> out == Executed(w.verify, true)[|Executed(w.verify, true)| - 1].out
      ensures executions == old(executions) + Executed(w.verify, true)
      ensures infraSignature == FaultAfter(w.verify, old(infraSignature))
      ensures Refuted(w.verify) ==>
                Salvages(w.salvageCanceled, w.salvageDiff, w.salvage, old(Remembered()).review, Remembered().review)
      ensures green ==> !Refuted(w.verify)
      ensures !Refuted(w.verify) && review != null ==> unchanged(review)
      ensures review != null ==> review.rounds <= old(review.rounds) + 1
    {
      hide *;
      var refuted;
      green, refuted, out := RunForUpgrade(w.verify);
      if refuted {
        ReviewUnverified(w.salvageCanceled, w.salvageDiff, w.salvage);
      }
    }

    /** Runs the verify command, and again after an environment fault. */
    method RunForUpgrade(w: VerifyWorld) returns (green: bool, refuted: bool, out: RunOutput)
      requires Valid()
      modifies this`executions, this`infraSignature
      ensures Valid() && Remembered() == old(Remembered())
      ensures green <==> LastGreen(w, true)
      ensures green ==> Executed(w, true) != [] && out == Executed(w, true)[|Executed(w, true)| - 1].out
      ensures refuted <==> Refuted(w)
      ensures green ==> !refuted
      ensures executions == old(executions) + Executed(w, true)
      ensures infraSignature == FaultAfter(w, old(infraSignature))
    {
      hide WellMeasured, Accounts, Review.AllSound, Review.OpenIndices;
      out := w.exec1.out;
      if w.canceled1 {
        return false, false, out;
      }
      executions := executions + [w.exec1];
      if w.exec1.error {
        return false, false, out;
      }
      if !out.exit.Failed? {
        return true, false, out;
      }
      if out.infra == "" {
        return false, true, out;
      }
      infraSignature := out.infra;
      if w.canceled2 {
        return false, false, out;
      }
      executions := executions + [w.exec2];
      if w.exec2.error {
        return false, false, out;
      }
      out := w.exec2.out;
      if out.exit.Failed? {
        if out.infra != "" {
          infraSignature := out.infra;
        }
        return false, true, out;
      }
      infraSignature := "";
      return true, false, out;
    }
  }
}
