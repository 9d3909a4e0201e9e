/**
 The review gate over a workspace that is already patched: each pass reviews the whole patch afresh,
 and what it feeds back is repaired by another run of the loop in the same workspace.
*/
module ReviewPass {
  import opened Generate
  import opened Spending
  import opened Gates
  import opened Review

  /** What one pass meets: gates that cannot be set up, a snapshot that fails, and the review itself. */
  datatype PassWorld = PassWorld(setupFails: bool, snapshotFails: bool, review: ReviewWorld)

  datatype Objected = SetupFailed | ByReview(why: Why) | StillUnavailable(status: Status) | NoRepairLoop

  /** The result that is being reviewed. */
  datatype Solved = Solved(outcome: RunOutcome, objection: Option<Objected>, usage: Usage, report: Option<Report>)

  /** What a repair run gives; some runs fail before they have a result, others afterwards. */
  datatype Repair = Repair(outcome: RunOutcome, usage: Usage, failed: bool, hasResult: bool)

  /** How the passes ended. */
  datatype Exit = NoReviewer | Objects | Clears | CannotRepair | RepairFailed | RanOut

  datatype Options = Options(maxRounds: int, required: bool, baseTree: bool, hasReviewer: bool, canRepair: bool)

  // ---- merging the reports of the passes -------------------------------------------------------------------

  function MergeStatus(d: Status, s: Status): Status {
    if !IsInfrastructure(d) || d.Unset? then s else d
  }

  function MergeReports(dst: Option<Report>, src: Option<Report>): Option<Report> {
    match (dst, src)
    case (_, None) => dst
    case (None, Some(s)) => Some(Recount(s))
    case (Some(d), Some(s)) =>
      Some(Recount(d.(rounds := if s.rounds > d.rounds then s.rounds else d.rounds,
                   status := MergeStatus(d.status, s.status), blocked := s.blocked, skipped := d.skipped || s.skipped,
                   findings := d.findings + s.findings, usage := AddUsage(d.usage, s.usage))))
  }

  function Recount(r: Report): Report {
    r.(confirmedBlockers := CountBlockers(r.findings, true), unconfirmedBlockers := CountBlockers(r.findings, false))
  }

  /**
   A finding that was fed back counts as repaired once another pass starts, if its severity is spelled
   to the letter.
  */
  function Mended(f: Reviewed): Reviewed {
    if f.fate.Expired? && f.finding.severity == Blocker(true) then f.(fate := Repaired) else f
  }

  function MendAll(fs: seq<Reviewed>): (out: seq<Reviewed>)
    ensures |out| == |fs|
    ensures forall i :: 0 <= i < |fs| ==> out[i] == Mended(fs[i])
  {
    seq(|fs|, i requires 0 <= i < |fs| => Mended(fs[i]))
  }

  /** The reports of the first n passes, put together: only the findings of the last one are not mended yet. */
  function AllFindings(reports: seq<Report>): seq<Reviewed> {
    if reports == [] then []
    else MendAll(AllFindings(reports[..|reports| - 1])) + reports[|reports| - 1].findings
  }

  function Flatten(parts: seq<seq<Reviewed>>): seq<Reviewed> {
    if parts == [] then [] else Flatten(parts[..|parts| - 1]) + parts[|parts| - 1]
  }

  lemma MendTwice(fs: seq<Reviewed>, gs: seq<Reviewed>)
    ensures MendAll(MendAll(fs)) == MendAll(fs) && MendAll(fs + gs) == MendAll(fs) + MendAll(gs)
  {
  }

  /** Each report's own findings, mended. */
  function MendedParts(reports: seq<Report>): seq<seq<Reviewed>> {
    seq(|reports|, k requires 0 <= k < |reports| => MendAll(reports[k].findings))
  }

  lemma {:induction false} MendedPrefix(reports: seq<Report>)
    ensures MendAll(AllFindings(reports)) == Flatten(MendedParts(reports))
  {
    if reports != [] {
      var n := |reports| - 1;
      MendedPrefix(reports[..n]);
      MendTwice(AllFindings(reports[..n]), []);
      MendTwice(MendAll(AllFindings(reports[..n])), reports[n].findings);
      assert MendedParts(reports)[..n] == MendedParts(reports[..n]);
    }
  }

  /**
   The merged findings are the findings of all passes, in order: mending them again after every pass
   changes nothing more.
  */
  lemma {:induction false} FindingsOfAllPasses(reports: seq<Report>)
    requires reports != []
    ensures var n := |reports| - 1; AllFindings(reports) == Flatten(MendedParts(reports[..n]) + [reports[n].findings])
  {
    hide MendedParts, MendAll;
    var n := |reports| - 1;
    var parts := MendedParts(reports[..n]) + [reports[n].findings];
    MendedPrefix(reports[..n]);
    assert parts[..|parts| - 1] == MendedParts(reports[..n]);
  }

  /** The first pass that could not be carried out decides the status; otherwise the last one does. */
  function StatusOf(reports: seq<Report>): Status
    requires reports != []
  {
    if |reports| == 1 || IsInfrastructure(reports[0].status) then reports[0].status else StatusOf(reports[1..])
  }

  function UsageOf(reports: seq<Report>): Usage
    requires reports != []
  {
    if |reports| == 1 then reports[0].usage
    else AddUsage(UsageOf(reports[..|reports| - 1]), reports[|reports| - 1].usage)
  }

  function RoundsOf(reports: seq<Report>): nat
    requires reports != []
  {
    if |reports| == 1 then reports[0].rounds
    else
      var r, s := RoundsOf(reports[..|reports| - 1]), reports[|reports| - 1].rounds;
      if s > r then s else r
  }

  /** d is what the passes come to. */
  predicate Combines(d: Option<Report>, reports: seq<Report>, mended: bool) {
    if reports == [] then d.None?
    else
      && d.Some? && d.value.findings == (if mended then MendAll(AllFindings(reports)) else AllFindings(reports))
      && d.value.status == StatusOf(reports) && d.value.usage == UsageOf(reports) && d.value.rounds == RoundsOf(reports)
      && d.value.blocked == reports[|reports| - 1].blocked
      && (d.value.skipped <==> exists k: nat :: k < |reports| && reports[k].skipped)
      && d.value.confirmedBlockers == CountBlockers(d.value.findings, true)
      && d.value.unconfirmedBlockers == CountBlockers(d.value.findings, false)
  }

  lemma {:induction false} StatusSnoc(reports: seq<Report>, s: Report)
    requires reports != []
    ensures StatusOf(reports + [s]) == MergeStatus(StatusOf(reports), s.status)
    decreases |reports|
  {
    if |reports| == 1 {
      assert (reports + [s])[1..] == [s];
    } else if !IsInfrastructure(reports[0].status) {
      assert (reports + [s])[1..] == reports[1..] + [s];
      StatusSnoc(reports[1..], s);
    }
  }

  /** One more pass. */
  lemma MergesOne(d: Option<Report>, reports: seq<Report>, s: Report)
    requires Combines(d, reports, true)
    ensures Combines(MergeReports(d, Some(s)), reports + [s], false)
  {
    assert (reports + [s])[..|reports|] == reports;
    if reports == [] {
      assert MendAll([]) + s.findings == s.findings;
    } else {
      StatusSnoc(reports, s);
    }
  }

  // ---- one pass ---------------------------------------------------------------------------------------------

  /** A pass sees only its own findings, so no blocker can recur in it. */
  lemma NothingRecurs(r: Round, o: Ruling, out: seq<Reviewed>, status: Status)
    requires r.w.answer.ReviewDone? && RoundDone([], r, o, out, status)
    ensures !(o.Block? && o.why.Recurred?)
    ensures o.Feedback? <==> r.may && Stands(FreshNews(r.w, r.n))
  {
    hide FreshNews, StatusAfter, Blocks, Stands, Leaves, OfFate;
  }

  lemma NothingSettled(fate: Fate)
    ensures Settled([], fate) == []
  {
  }

  /** The review round that a pass makes. */
  function RoundAt(pass: nat, opts: Options, w: PassWorld): Round
    requires w.review.answer.ReviewDone?
  {
    Round(w.review, pass, pass < opts.maxRounds, opts.required,
          SolicitStatus(if w.snapshotFails then Unavailable else Unset, w.review))
  }

  /** A review that did not come about, or failed: it holds the result up only if it is required. */
  predicate Without(opts: Options, w: PassWorld, ruling: Ruling, status: Status) {
    if w.snapshotFails && !opts.baseTree then ruling == (if opts.required then Block(SkippedButRequired) else Pass)
    else if w.review.canceled then ruling == Pass && status.Canceled?
    else if w.review.diff.BlankDiff? then
      ruling == Pass && status == (if w.snapshotFails then Unavailable else Status.Clean)
    else
      && status == (if w.review.diff.DiffFailed? then w.review.diff.status
                    else if w.review.answer.ReviewFailed? then w.review.answer.status else status)
      && ruling == if opts.required && IsInfrastructure(status) then Block(RequiredButUnavailable(status)) else Pass
  }

  /**
   What a pass that was set up reports: the verdict's findings, judged afresh, with what is fed back
   filed as expired.
  */
  ghost predicate Reviews(pass: nat, opts: Options, w: PassWorld, report: Report, ruling: Ruling,
          judged: seq<Reviewed>) {
    && !w.setupFails && report.findings == Settled(judged, Expired)
    && if AsksReviewer(opts, w) && w.review.answer.ReviewDone?
       then RoundDone([], RoundAt(pass, opts, w), ruling, judged, report.status)
       else judged == [] && Without(opts, w, ruling, report.status)
  }

  /** report is what pass number pass reports, with this ruling. */
  ghost predicate Reported(pass: nat, opts: Options, w: PassWorld, report: Report, ruling: Ruling) {
    exists judged :: Reviews(pass, opts, w, report, ruling, judged)
  }

  ghost predicate SomeRuling(pass: nat, opts: Options, w: PassWorld, report: Report) {
    exists ruling :: Reported(pass, opts, w, report, ruling)
  }

  /** A pass sends the result back for repair. */
  ghost predicate FedBack(pass: nat, opts: Options, w: PassWorld) {
    && !w.setupFails && AsksReviewer(opts, w) && w.review.answer.ReviewDone? && pass < opts.maxRounds
    && Stands(FreshNews(w.review, pass))
  }

  lemma FedBackIff(pass: nat, opts: Options, w: PassWorld, report: Report, ruling: Ruling, judged: seq<Reviewed>)
    requires Reviews(pass, opts, w, report, ruling, judged)
    ensures ruling.Feedback? <==> FedBack(pass, opts, w)
    ensures !(ruling.Block? && ruling.why.Recurred?)
  {
    hide RoundDone, Stands, FreshNews, Settled;
    if AsksReviewer(opts, w) && w.review.answer.ReviewDone? {
      NothingRecurs(RoundAt(pass, opts, w), ruling, judged, report.status);
    }
  }

  /** Reviews the workspace once.  A setup that fails objects, and leaves no report. */
  method ReviewOnce(pass: nat, opts: Options, w: PassWorld, spend: Spend?)
    returns (feedback: bool, objection: Option<Objected>, report: Option<Report>, ghost ruling: Ruling)
    requires pass >= 1 && (spend != null ==> spend.Valid())
    modifies spend
    ensures spend != null ==> spend.Valid()
    ensures feedback <==> FedBack(pass, opts, w)
    ensures feedback ==> pass < opts.maxRounds && objection.None?
    ensures w.setupFails <==> report.None?
    ensures w.setupFails ==> objection == Some(SetupFailed)
    ensures report.Some? ==> feedback == ruling.Feedback?
    ensures report.Some? ==> objection == if ruling.Block? then Some(ByReview(ruling.why)) else None
    ensures report.Some? ==> Reported(pass, opts, w, report.value, ruling)
    ensures report.Some? ==>
              && report.value.rounds == (if AsksReviewer(opts, w) then pass else pass - 1)
              && report.value.usage == (if AsksReviewer(opts, w) then RoundUsage(NO_USAGE, w.review) else NO_USAGE)
              && (report.value.blocked <==> ruling.Block? && (ruling.why.BlockersRemain? || ruling.why.Recurred?))
              && forall i :: 0 <= i < |report.value.findings| ==> !report.value.findings[i].fate.Pending?
    ensures report.Some? && objection.None? && !feedback && opts.required && !w.review.canceled
            && !w.review.diff.BlankDiff? ==>
              !IsInfrastructure(report.value.status)
  {
    hide OpenIndices, Sound, RoundDone, Settled, OfFate, CountBlockers, FedBack, Reported, FeedbackDue, SolicitStatus,
      RoundUsage, RoundCharges;
    ruling := Pass;
    NoFeedbackBefore(pass, opts, w);
    if w.setupFails {
      return false, Some(SetupFailed), None, ruling;
    }
    var rv := new ReviewState(opts.maxRounds, opts.required, w.snapshotFails, pass - 1);
    if opts.baseTree {
      rv.skip := false;
    }
    NothingSettled(Repaired);
    var o := rv.ReviewFinish(pass < opts.maxRounds, w.review, spend);
    ghost var judged := rv.findings;
    NoneSettled(judged);
    var r := rv.MakeReport();
    IsReported(pass, opts, w, r, o, judged);
    FedBackIff(pass, opts, w, r, o, judged);
    return o.Feedback?, if o.Block? then Some(ByReview(o.why)) else None, Some(r), o;
  }

  const NO_USAGE := Usage(0, 0, 0, 0, 0, 0.0)

  lemma HasRuling(pass: nat, opts: Options, w: PassWorld, report: Option<Report>, ruling: Ruling)
    requires report.Some? ==> Reported(pass, opts, w, report.value, ruling)
    ensures report.Some? ==> SomeRuling(pass, opts, w, report.value)
  {
    hide Reported;
  }

  lemma NoFeedbackBefore(pass: nat, opts: Options, w: PassWorld)
    ensures w.setupFails ==> !FedBack(pass, opts, w)
    ensures FedBack(pass, opts, w) ==> pass < opts.maxRounds
  {
  }

  lemma IsReported(pass: nat, opts: Options, w: PassWorld, report: Report, ruling: Ruling, judged: seq<Reviewed>)
    requires Reviews(pass, opts, w, report, ruling, judged)
    ensures Reported(pass, opts, w, report, ruling)
  {
    hide Reviews;
  }

  lemma NoneSettled(fs: seq<Reviewed>)
    ensures fs == [] ==> Settled(fs, Expired) == []
  {
  }

  /** A pass asks the reviewer unless the base of the diff is missing, the user canceled, or there is no diff. */
  predicate AsksReviewer(opts: Options, w: PassWorld) {
    Reached(w.snapshotFails && !opts.baseTree, w.review)
  }

  // ---- the loop ------------------------------------------------------------------------------------------------

  /** Base usage and that of the first n repairs. */
  function TotalUsage(base: Usage, repair: nat -> Repair, n: nat): Usage {
    if n == 0 then base else AddUsage(repair(n).usage, TotalUsage(base, repair, n - 1))
  }

  /** The result after n repairs, before anything is held against it. */
  function OutcomeAfter(base: RunOutcome, repair: nat -> Repair, n: nat): RunOutcome {
    if n == 0 then base else repair(n).outcome
  }

  /** Where the findings of pass k + 1 start in the merged report. */
  function Offset(reports: seq<Report>, k: nat): nat
    requires k <= |reports|
  {
    if k == 0 then 0 else Offset(reports, k - 1) + |reports[k - 1].findings|
  }

  lemma {:induction false} OffsetPrefix(reports: seq<Report>, n: nat, k: nat)
    requires k <= n <= |reports|
    ensures Offset(reports[..n], k) == Offset(reports, k)
  {
    if k > 0 {
      OffsetPrefix(reports, n, k - 1);
    }
  }

  lemma {:induction false} AllFindingsSize(reports: seq<Report>)
    ensures |AllFindings(reports)| == Offset(reports, |reports|)
  {
    if reports != [] {
      var n := |reports| - 1;
      AllFindingsSize(reports[..n]);
      OffsetPrefix(reports, n, n);
    }
  }

  /** Finding i of pass k + 1 stands in the merged report, mended once another pass started. */
  lemma {:induction false} MergedAt(reports: seq<Report>, k: nat, i: nat)
    requires k < |reports| && i < |reports[k].findings|
    ensures Offset(reports, k) + i < |AllFindings(reports)|
    ensures AllFindings(reports)[Offset(reports, k) + i] == if k + 1 < |reports| then Mended(reports[k].findings[i])
            else reports[k].findings[i]
  {
    var n := |reports| - 1;
    AllFindingsSize(reports[..n]);
    OffsetPrefix(reports, n, n);
    hide Mended;
    if k < n {
      MergedAt(reports[..n], k, i);
      OffsetPrefix(reports, n, k);
      MendedTwice(reports[k].findings[i]);
    }
  }

  lemma MendedTwice(f: Reviewed)
    ensures Mended(Mended(f)) == Mended(f)
  {
  }

  /**
   What becomes in the end of a finding that a pass with feedback made: a blocker counts as repaired if
   it is spelled so to the letter.
  */
  function Final(f: Reviewed): Reviewed {
    if f.fate.Pending? then f.(fate := if f.finding.severity == Blocker(true) then Repaired else Expired) else f
  }

  /** A ladder's fate is neither repaired nor expired. */
  lemma FreshFate(news: seq<Reviewed>, fs: seq<Finding>, look: nat -> Examination, round: nat, i: nat)
    requires JudgedAll(news, fs, look, round) && i < |news|
    ensures !news[i].fate.Expired? && !news[i].fate.Repaired?
  {
    hide WantsRun, RanClean, Grounded, LeftDirty, BudgetAt;
  }

  /**
   In the merged report of a repaired workspace, the findings of every pass that was fed back are those
   its verdict was judged to have; of those that blocked, the ones spelled "blocker" end repaired and the
   others expired, and everything else keeps its fate.
  */
  lemma FedBackFates(d: Option<Report>, reports: seq<Report>, mended: bool, k: nat, opts: Options, w: PassWorld,
          ruling: Ruling)
    returns (news: seq<Reviewed>)
    requires Combines(d, reports, mended) && k < |reports| && (k + 1 < |reports| || mended)
    requires Reported(k + 1, opts, w, reports[k], ruling) && FedBack(k + 1, opts, w)
    ensures w.review.answer.ReviewDone? && NewsOf(news, w.review, k + 1) && |news| == |reports[k].findings|
    ensures d.Some? && Offset(reports, k) + |news| <= |d.value.findings|
    ensures forall i: nat :: i < |news| ==> d.value.findings[Offset(reports, k) + i] == Final(news[i])
  {
    hide *;
    news := FeedbackNews(k + 1, opts, w, reports[k], ruling);
    AllFindingsSize(reports);
    OffsetFits(reports, k);
    MergedFindings(d, reports, mended);
    forall i: nat | i < |news|
      ensures d.value.findings[Offset(reports, k) + i] == Final(news[i])
    {
      MergedAt(reports, k, i);
      MergedFate(w.review, k + 1, news, i, reports[k].findings[i]);
      MendedIs(AllFindings(reports), Offset(reports, k) + i);
      MendedTwice(reports[k].findings[i]);
    }
  }

  lemma {:induction false} OffsetFits(reports: seq<Report>, k: nat)
    requires k < |reports|
    ensures Offset(reports, k) + |reports[k].findings| <= Offset(reports, |reports|)
    decreases |reports|
  {
    if k + 1 < |reports| {
      OffsetFits(reports[..|reports| - 1], k);
      OffsetPrefix(reports, |reports| - 1, k);
      OffsetPrefix(reports, |reports| - 1, |reports| - 1);
    }
  }

  lemma {:induction false} MergedFindings(d: Option<Report>, reports: seq<Report>, mended: bool)
    requires Combines(d, reports, mended) && reports != []
    ensures d.Some? && |d.value.findings| == |AllFindings(reports)|
    ensures d.value.findings == if mended then MendAll(AllFindings(reports)) else AllFindings(reports)
  {
    hide AllFindings, StatusOf, UsageOf, RoundsOf;
  }

  lemma MendedIs(fs: seq<Reviewed>, i: nat)
    requires i < |fs|
    ensures |MendAll(fs)| == |fs| && MendAll(fs)[i] == Mended(fs[i])
  {
  }

  lemma FeedbackNews(pass: nat, opts: Options, w: PassWorld, report: Report, ruling: Ruling)
    returns (news: seq<Reviewed>)
    requires Reported(pass, opts, w, report, ruling) && FedBack(pass, opts, w)
    ensures w.review.answer.ReviewDone? && NewsOf(news, w.review, pass) && |news| == |report.findings|
            && report.findings == Settled(news, Expired)
  {
    hide OfFate, NewsOf, RecurredFrom, Stands, FreshNews, Blocks, Repeats, StatusAfter;
    var judged :| Reviews(pass, opts, w, report, ruling, judged);
    FedBackIff(pass, opts, w, report, ruling, judged);
    FreshIsNews(w.review, pass);
    news := FreshNews(w.review, pass);
    assert [] + news == news;
  }

  lemma MergedFate(w: ReviewWorld, pass: nat, news: seq<Reviewed>, i: nat, reported: Reviewed)
    requires w.answer.ReviewDone? && NewsOf(news, w, pass) && i < |news|
    requires reported == Settled(news, Expired)[i]
    ensures Mended(reported) == Final(news[i])
  {
    hide JudgedAll, Effective;
    FreshFate(news, Effective(w.answer.verdict, w.solicit), w.look, pass, i);
  }

  /**
   Reviews, and repairs while the review asks for it.  The last pass cannot ask, so the loop is always
   left from inside, after at most one repair less than there are rounds.
  */
  method ReviewAndRepair(base: Solved, opts: Options, w: nat -> PassWorld, repair: nat -> Repair, spend: Spend?)
    returns (out: Solved, failed: bool, exit: Exit, passes: nat, repairs: nat, ghost reports: seq<Report>)
    requires spend != null ==> spend.Valid()
    modifies spend
    ensures spend != null ==> spend.Valid()
    ensures exit.NoReviewer? <==> !opts.hasReviewer
    ensures exit.RanOut? ==> opts.maxRounds < 1
    ensures opts.maxRounds >= 1 ==> passes <= opts.maxRounds && repairs <= opts.maxRounds - 1
    ensures out.usage == TotalUsage(base.usage, repair, repairs)
    ensures exit.Objects? || exit.CannotRepair? ==> out.outcome.Unverified? && out.objection.Some?
    ensures exit.Clears? ==>
              && reports != []
              && out.outcome == if opts.required && IsInfrastructure(StatusOf(reports)) then Unverified
                                else OutcomeAfter(base.outcome, repair, repairs)
    ensures exit.RepairFailed? || exit.RanOut? || exit.NoReviewer? ==>
              out.outcome == OutcomeAfter(base.outcome, repair, repairs)
    ensures failed <==> exit.RepairFailed? && repair(passes).failed
    ensures exit.Clears? || exit.Objects? ==> passes == repairs + 1
    ensures opts.hasReviewer && opts.maxRounds >= 1 ==> Combines(out.report, reports, |reports| < passes)
    ensures |reports| == passes || (|reports| + 1 == passes && exit.Objects? && out.objection == Some(SetupFailed))
    ensures forall k :: 0 <= k < |reports| - 1 ==> !reports[k].blocked
    ensures forall k :: 0 <= k < |reports| ==> SomeRuling(k + 1, opts, w(k + 1), reports[k])
    ensures forall k: nat :: 1 <= k <= passes ==>
              (FedBack(k, opts, w(k)) <==> k < passes || exit.CannotRepair? || exit.RepairFailed?)
    ensures forall k: nat :: 1 <= k < passes ==> repair(k).hasResult && !repair(k).failed
    ensures exit.CannotRepair? ==> !opts.canRepair
    ensures exit.RepairFailed? ==>
              opts.canRepair && passes >= 1 && (repair(passes).hasResult ==> repair(passes).failed)
    ensures passes >= 1 ==> repairs == if exit.RepairFailed? && repair(passes).hasResult then passes else passes - 1
    ensures opts.hasReviewer && opts.maxRounds >= 1 ==> passes >= 1
    ensures exit.Objects? ==>
              || (w(passes).setupFails && out.objection == Some(SetupFailed))
              || (|reports| == passes && exists why ::
                  && Reported(passes, opts, w(passes), reports[passes - 1], Block(why))
                  && out.objection == Some(ByReview(why)))
    ensures exit.Clears? ==> Reported(passes, opts, w(passes), reports[passes - 1], Pass)
  {
    hide *;
    out, failed, passes, repairs, reports := base, false, 0, 0, [];
    TotalStart(base, repair);
    if !opts.hasReviewer {
      return out, false, NoReviewer, 0, 0, [];
    }
    var combined: Option<Report> := None;
    var spent := base.usage;
    NothingCombined();
    var pass: nat := 1;
    while pass <= opts.maxRounds
      invariant pass >= 1 && passes == repairs == |reports| == pass - 1
      invariant opts.maxRounds >= 1 ==> pass <= opts.maxRounds
      invariant opts.maxRounds < 1 ==> pass == 1
      invariant spend != null ==> spend.Valid()
      invariant out.usage == spent == TotalUsage(base.usage, repair, repairs)
      invariant out.outcome == OutcomeAfter(base.outcome, repair, repairs)
      invariant Combines(combined, reports, true)
      invariant forall k :: 0 <= k < |reports| ==> !reports[k].blocked
      invariant forall k :: 0 <= k < |reports| ==> SomeRuling(k + 1, opts, w(k + 1), reports[k])
      invariant forall k: nat :: 1 <= k < pass ==> FedBack(k, opts, w(k)) && repair(k).hasResult && !repair(k).failed
      decreases opts.maxRounds - pass
    {
      var feedback, objection, report;
      ghost var ruling;
      feedback, objection, report, ruling := ReviewOnce(pass, opts, w(pass), spend);
      passes := passes + 1;
      var kept := combined;
      combined := MergeReports(combined, report);
      MergesPass(kept, reports, report);
      HasRuling(pass, opts, w(pass), report, ruling);
      reports := if report.Some? then reports + [report.value] else reports;
      out := out.(report := combined);
      if objection.Some? {
        return out.(outcome := Unverified, objection := objection), false, Objects, passes, repairs, reports;
      }
      if !feedback {
        var status := if combined.Some? then combined.value.status else Unset;
        CombinedStatus(combined, reports);
        if opts.required && IsInfrastructure(status) {
          return out.(outcome := Unverified, objection := Some(StillUnavailable(status))), false, Clears, passes,
            repairs, reports;
        }
        return out, false, Clears, passes, repairs, reports;
      }
      if !opts.canRepair {
        return out.(outcome := Unverified, objection := Some(NoRepairLoop)), false, CannotRepair, passes, repairs,
          reports;
      }
      var res := repair(pass);
      if !res.hasResult {
        return out, res.failed, RepairFailed, passes, repairs, reports;
      }
      TotalStep(base.usage, repair, pass);
      StepOutcome(base.outcome, repair, pass);
      spent := AddUsage(res.usage, spent);
      repairs := repairs + 1;
      out := Solved(res.outcome, None, spent, combined);
      if res.failed {
        return out, true, RepairFailed, passes, repairs, reports;
      }
      combined := MendReport(combined);
      MendsCombined(out.report, reports);
      pass := pass + 1;
    }
    return out, false, RanOut, passes, repairs, reports;
  }

  function MendReport(r: Option<Report>): Option<Report> {
    match r
    case None => None
    case Some(d) => Some(d.(findings := MendAll(d.findings)))
  }

  lemma TotalStart(base: Solved, repair: nat -> Repair)
    ensures TotalUsage(base.usage, repair, 0) == base.usage && OutcomeAfter(base.outcome, repair, 0) == base.outcome
  {
  }

  lemma TotalStep(base: Usage, repair: nat -> Repair, n: nat)
    requires n >= 1
    ensures TotalUsage(base, repair, n) == AddUsage(repair(n).usage, TotalUsage(base, repair, n - 1))
  {
  }

  lemma StepOutcome(base: RunOutcome, repair: nat -> Repair, n: nat)
    requires n >= 1
    ensures OutcomeAfter(base, repair, n) == repair(n).outcome
  {
  }

  lemma NothingCombined()
    ensures Combines(None, [], true)
  {
  }

  lemma MergesPass(d: Option<Report>, reports: seq<Report>, report: Option<Report>)
    requires Combines(d, reports, true)
    ensures report.None? ==> MergeReports(d, report) == d
    ensures report.Some? ==> Combines(MergeReports(d, report), reports + [report.value], false)
  {
    if report.Some? {
      MergesOne(d, reports, report.value);
    }
  }

  lemma {:induction false} CombinedStatus(d: Option<Report>, reports: seq<Report>)
    requires Combines(d, reports, false) && reports != []
    ensures d.Some? && d.value.status == StatusOf(reports)
  {
  }

  lemma MendsCombined(d: Option<Report>, reports: seq<Report>)
    requires Combines(d, reports, false)
    ensures Combines(MendReport(d), reports, true)
  {
    hide AllFindings, CountBlockers, MendAll, StatusOf, UsageOf, RoundsOf;
    if d.Some? {
      MendKeepsCount(d.value.findings, true);
      MendKeepsCount(d.value.findings, false);
    }
  }

  /** A repaired blocker is still counted. */
  lemma {:induction false} MendKeepsCount(fs: seq<Reviewed>, confirmed: bool)
    ensures CountBlockers(MendAll(fs), confirmed) == CountBlockers(fs, confirmed)
  {
    if fs != [] {
      MendKeepsCount(fs[..|fs| - 1], confirmed);
      assert MendAll(fs)[..|fs| - 1] == MendAll(fs[..|fs| - 1]);
    }
  }
}
