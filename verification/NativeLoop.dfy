/**
 The turn loop over native tool calls.  Each method says what it adds to the record of the run, and
 the run as a whole is a trace in the sense of NativeTrace.
*/
module NativeLoop {
  import opened Texts
  import opened Transcript
  import opened Generate
  import opened Spending
  import opened Gates
  import opened NativeDispatch
  import opened NativeTrace
  import opened NativeRepeats
  import Review
  import Repro
  import Tracker
  import Spiral

  datatype LoopState = LoopState(
    messages: seq<Message>, usage: Usage, lastUsage: Usage, calls: nat, iterations: nat,
    repeats: nat, lastTurnSig: string, lastReasoning: string, lastStanding: string, lastText: string)
  {
    function Tally(): Tally {
      NativeTrace.Tally(usage, lastUsage, iterations, lastText)
    }
  }

  /** How a turn ends: the loop goes on, the run is over, or it was cut and may still be upgraded. */
  datatype Step = Next | Over(result: Result) | Cut(outcome: RunOutcome)

  datatype RunResult = RunResult(
    outcome: RunOutcome, answer: string, rescuedFrom: Option<RunOutcome>, iterations: nat,
    messages: seq<Message>, usage: Usage, lastUsage: Usage, calls: nat)

  ghost function PriceOf(spend: Spend?): Option<Pricer> {
    if spend == null then None else Some(spend.price)
  }

  ghost function ChargesOn(spend: Spend?): seq<Charge>
    reads spend
  {
    if spend == null then [] else spend.charges
  }

  /** The gates as a turn finds them. */
  ghost predicate Ready(gs: GateKeeper)
    reads gs, gs.review, gs.spend
  {
    gs.Valid() && gs.RoundsLeft() && gs.NotBlocked()
  }

  lemma ReadyMeans(gs: GateKeeper)
    requires Ready(gs)
    ensures gs.Valid() && gs.RoundsLeft() && gs.NotBlocked() && RoundsBounded(gs)
    ensures gs.spend != null ==> gs.spend.Valid()
    ensures gs.review != null ==> gs.review.rounds == 0 || gs.review.rounds < gs.review.maxRounds
  {
  }

  lemma IsReady(gs: GateKeeper)
    requires gs.Valid() && gs.RoundsLeft() && gs.NotBlocked()
    ensures Ready(gs)
  {
  }

  ghost predicate RoundsBounded(gs: GateKeeper)
    reads gs.review
  {
    gs.review != null ==> gs.review.rounds <= 1 || gs.review.rounds <= gs.review.maxRounds
  }

  lemma RoundsAfter(gs: GateKeeper, before: nat)
    requires gs.review != null ==> gs.review.rounds <= before + 1 && (before == 0 || before < gs.review.maxRounds)
    ensures RoundsBounded(gs)
  {
  }

  // ---- before and during the model call -------------------------------------------------------------

  /** One of the caps has been reached when the next turn would start. */
  ghost predicate OverBudget(pol: LoopPolicy, price: Option<Pricer>, tokens: int, charges: seq<Charge>) {
    || (pol.maxTotalTokens > 0 && tokens >= pol.maxTotalTokens)
    || (pol.maxCost > 0.0 && (price.Some? && !pol.allowUnpriced ==> !WithinCap(pol.maxCost, price.value, charges)))
  }

  method CheckBudgets(i: nat, tokens: Usage, pol: LoopPolicy, w: World, spend: Spend?) returns (step: Step)
    requires spend != null ==> spend.Valid()
    ensures step.Next? ==>
              !w.canceled(i) && !w.deadline(i) && Affordable(pol, PriceOf(spend), Start(tokens.total, ChargesOn(spend)))
    ensures step.Over? <==> w.canceled(i)
    ensures step.Over? ==> step.result == Result(Canceled, "", None)
    ensures step.Cut? ==> step.outcome == if w.deadline(i) then HitDeadline else HitBudget
    ensures step.Cut? && !w.deadline(i) ==> OverBudget(pol, PriceOf(spend), tokens.total, ChargesOn(spend))
  {
    hide WithinCap;
    if w.canceled(i) {
      return Over(Result(Canceled, "", None));
    }
    if w.deadline(i) {
      return Cut(HitDeadline);
    }
    if pol.maxTotalTokens > 0 && tokens.total >= pol.maxTotalTokens {
      return Cut(HitBudget);
    }
    var stop := DollarBudgetStop(pol.maxCost, pol.allowUnpriced, spend, w.costFn, tokens);
    return if stop then Cut(HitBudget) else Next;
  }

  /** The standing block is shown when it changed. */
  method ShowStanding(i: nat, s0: LoopState, w: World) returns (s: LoopState)
    requires i >= 1 && s0.lastStanding == LastStanding(w, i - 1)
    ensures s == s0.(messages := s0.messages + Block(w, i), lastStanding := LastStanding(w, i))
  {
    s := s0;
    var block := w.standing(i);
    if block != "" && block != s.lastStanding {
      s := s.(messages := s.messages + [UserMsg(block)], lastStanding := block);
    } else {
      assert s.messages + [] == s.messages;
    }
  }

  /** What becomes of a model call that failed for good. */
  function Classified(deadline: bool, canceled: bool, f: Fault): Step {
    if deadline then Cut(HitDeadline)
    else if f.contextLength then Cut(HitContextLimit)
    else if canceled then Over(Result(Canceled, "", None))
    else Over(Result(ProviderErr, "", None))
  }

  lemma ClassifiedStops(deadline: bool, canceled: bool, f: Fault)
    ensures !Classified(deadline, canceled, f).Next?
  {
  }

  /**
   Asks the model.  What was paid for is on the account, once and only for a call that completed; the
   transcript is the one it was asked with, recovered as often as it took.
  */
  method CallModel(i: nat, s0: LoopState, pol: LoopPolicy, w: World, gs: GateKeeper)
    returns (s: LoopState, content: seq<Part>, step: Step)
    requires Ready(gs) && Answers(w.provider)
    modifies gs.spend
    ensures Ready(gs)
    ensures var turn := RecoverTurn(w.provider, s0.calls, s0.messages);
            s.calls == s0.calls + turn.calls && s.messages == turn.rec.Apply(s0.messages) && s.calls >= 1
    ensures var failed := w.provider(s.calls - 1).fault.Some?;
            && s.Tally() == TallyNext(s0.Tally(), w, i, s.calls - 1, failed)
            && step == (if failed
                        then Classified(w.callDeadline(i), w.callCanceled(i), w.provider(s.calls - 1).fault.value)
                        else Next)
            && (!failed ==> w.provider(s.calls - 1).resp.Some? && content == w.provider(s.calls - 1).resp.value.content)
            && ChargesOn(gs.spend) ==
               if gs.spend == null then []
                 else old(ChargesOn(gs.spend)) + TurnCharge(w, pol.solver, s.calls - 1, failed)
    ensures step.Next? <==> w.provider(s.calls - 1).fault.None?
    ensures s == s0.(messages := s.messages, usage := s.usage, lastUsage := s.lastUsage, calls := s.calls,
                     iterations := s.iterations, lastText := s.lastText)
  {
    hide *;
    var resp, msgs, fault, calls, rec := GenerateWithEviction(w.provider, s0.calls, s0.messages);
    s, content, step := s0.(messages := msgs, calls := s0.calls + calls), [], Next;
    CallAdds(w, i, s0.Tally(), s.calls - 1, pol.solver, resp, fault);
    match fault {
      case Some(f) =>
        if resp.Some? {
          s := s.(lastText := Remember(TrimSpace(TextOf(resp.value.content)), s.lastText));
        }
        step := Classified(w.callDeadline(i), w.callCanceled(i), f);
        ClassifiedStops(w.callDeadline(i), w.callCanceled(i), f);
        assert ChargesOn(gs.spend) + [] == ChargesOn(gs.spend);
        NoAccount(gs.spend);
      case None =>
        AnswersAt(w.provider, s.calls - 1);
        var r := resp.value;
        s, content := s.(iterations := i, usage := Review.AddUsage(s.usage, r.usage), lastUsage := r.usage,
                         lastText := Remember(TrimSpace(TextOf(r.content)), s.lastText)), r.content;
        Pay(gs, pol.solver, r.usage);
    }
    TallyIs(s0);
    TallyIs(s);
  }

  lemma TallyIs(s: LoopState)
    ensures s.Tally() == Tally(s.usage, s.lastUsage, s.iterations, s.lastText)
  {
  }

  /** What a call adds to the tally and the account. */
  lemma CallAdds(w: World, i: nat, a: Tally, call: nat, solver: string, resp: Option<Response>, fault: Option<Fault>)
    requires Answers(w.provider) && fault == w.provider(call).fault
    requires fault.Some? && fault.value.contextLength ==> resp.None?
    requires fault.None? || !fault.value.contextLength ==> resp == w.provider(call).resp
    ensures fault.None? ==>
              && resp.Some?
              && TallyNext(a, w, i, call, false) ==
                 Tally(Review.AddUsage(a.usage, resp.value.usage), resp.value.usage, i,
                     Remember(TrimSpace(TextOf(resp.value.content)), a.text))
              && TurnCharge(w, solver, call, false) ==
                 (if Reported(resp.value.usage) then [Charge(solver, resp.value.usage)] else [])
    ensures fault.Some? ==>
              && TallyNext(a, w, i, call, true) ==
                 (if resp.Some? then a.(text := Remember(TrimSpace(TextOf(resp.value.content)), a.text)) else a)
              && TurnCharge(w, solver, call, true) == []
  {
    hide TextOf, Remember, Reported;
  }

  lemma NoAccount(spend: Spend?)
    ensures spend == null ==> ChargesOn(spend) == []
  {
  }

  /** Paying for a call leaves the gates ready. */
  method Pay(gs: GateKeeper, model: string, u: Usage)
    requires Ready(gs)
    modifies gs.spend
    ensures Ready(gs)
    ensures ChargesOn(gs.spend) ==
            if gs.spend == null then [] else old(ChargesOn(gs.spend)) + if Reported(u) then [Charge(model, u)] else []
  {
    hide WellMeasured, Accounts, Review.AllSound;
    if gs.spend != null {
      gs.spend.Add(model, u);
    }
  }

  lemma AnswersAt(provider: Provider, n: nat)
    requires Answers(provider) && provider(n).fault.None?
    ensures provider(n).resp.Some?
  {
  }

  // ---- turns that end the run, or try to -------------------------------------------------------------

  /** The result that a decision ends the run with. */
  function ResultOfDecision(d: Decision): Option<Result> {
    match d
    case Continue(_) => None
    case Stop(outcome, _, answer) => Some(Result(outcome, answer, None))
    case Accept(answer) => Some(Result(Answered, answer, None))
  }

  /** What becomes of a turn that does not act. */
  function StepOf(closed: Closed): Step {
    match closed
    case NotClosed => Next
    case Closed(d, _) => if ResultOfDecision(d).Some? then Over(ResultOfDecision(d).value) else Next
  }

  /** The gates' decision, carried out. */
  method Close(i: nat, s0: LoopState, input: FinishInput, w: World, gs: GateKeeper)
    returns (s: LoopState, step: Step, ghost closed: Closed)
    requires Ready(gs)
    modifies gs, gs.review, gs.repro, gs.spend
    ensures gs.Valid() && closed.Closed? && step == StepOf(closed) && !step.Cut?
    ensures gs.Decides(input, w.finish(i), Repro.Core(old(gs.repro.state)), old(gs.Remembered()), closed.ruling,
                       closed.decision, gs.Remembered())
    ensures s == s0.(messages := s0.messages + Feedback(w, closed))
    ensures step.Next? ==> input.canContinue && Ready(gs)
    ensures step.Over? && step.result.outcome.Answered? ==> gs.NotBlocked()
    ensures gs.review != null ==> gs.review.rounds <= old(gs.review.rounds) + 1
    ensures Repro.Core(gs.repro.state) == Repro.Core(old(gs.repro.state))
    ensures old(ChargesOn(gs.spend)) <= ChargesOn(gs.spend)
  {
    hide *;
    ReadyMeans(gs);
    s := s0;
    var d := gs.Finish(input, w.finish(i));
    closed := Closed(d, gs.ruling);
    Repro.CoreMeans(old(gs.repro.state), gs.repro.state, gs.pol.reproFirst, w.finish(i).repro);
    DecidesCore(gs, input, w.finish(i), old(gs.repro.state), old(gs.Remembered()), closed, gs.Remembered());
    ChargesMean(gs.spend);
    ClosedMeans(w, closed);
    match d {
      case Continue(why) =>
        s := s.(messages := s.messages + [UserMsg(w.feedback(why))]);
        IsReady(gs);
        step := Next;
      case Stop(outcome, why, answer) =>
        assert s.messages + [] == s.messages;
        StopNotAnswered(gs, input, w.finish(i), Repro.Core(old(gs.repro.state)), old(gs.Remembered()), closed,
            gs.Remembered());
        step := Over(Result(outcome, answer, None));
      case Accept(answer) =>
        assert s.messages + [] == s.messages;
        step := Over(Result(Answered, answer, None));
    }
  }

  lemma ClosedMeans(w: World, closed: Closed)
    requires closed.Closed?
    ensures match closed.decision
            case Continue(why) => StepOf(closed) == Next && Feedback(w, closed) == [UserMsg(w.feedback(why))]
            case Stop(outcome, _, answer) => StepOf(closed) == Over(Result(outcome, answer, None))
              && Feedback(w, closed) == []
            case Accept(answer) => StepOf(closed) == Over(Result(Answered, answer, None)) && Feedback(w, closed) == []
  {
  }

  lemma StopNotAnswered(gs: GateKeeper, input: FinishInput, w: FinishWorld, repro0: Repro.State, m: Memory,
          closed: Closed, m': Memory)
    requires closed.Closed? && gs.Decides(input, w, repro0, m, closed.ruling, closed.decision, m')
    ensures closed.decision.Stop? ==> !closed.decision.outcome.Answered?
  {
    hide gs.VerifySendsBack, gs.ReproSendsBack, gs.MeetsRepro, gs.MeetsReview, gs.CountsSoft, gs.OldFailure,
      gs.StageReason, Review.ReviewState.Ruled, Repro.Satisfied;
  }

  /** How a locked test did plays no part in a decision. */
  lemma DecidesCore(gs: GateKeeper, input: FinishInput, w: FinishWorld, s: Repro.State, m: Memory, closed: Closed,
          m': Memory)
    requires closed.Closed?
    ensures gs.Decides(input, w, Repro.Core(s), m, closed.ruling, closed.decision, m') <==>
            gs.Decides(input, w, s, m, closed.ruling, closed.decision, m')
  {
    Repro.CoreMeans(s, s, gs.pol.reproFirst, w.repro);
    UndeclaredCore(s);
    hide Repro.Satisfied, Repro.Core, gs.VerifySendsBack, gs.MeetsRepro, gs.CountsSoft, gs.OldFailure, gs.StageReason,
      Review.ReviewState.Ruled;
  }

  lemma UndeclaredCore(s: Repro.State)
    ensures Repro.Core(s).Undeclared? <==> s.Undeclared?
  {
  }

  twostate lemma ChargesMean(spend: Spend?)
    requires spend != null ==> old(spend.charges) <= spend.charges
    ensures old(ChargesOn(spend)) <= ChargesOn(spend)
  {
  }

  /** A turn without tool calls answers, unless it says nothing and the caller expects a finish tool call. */
  method AnswerTurn(i: nat, s0: LoopState, content: seq<Part>, advanced: bool, sig: string, pol: LoopPolicy, w: World,
          gs: GateKeeper, lastRunFailed: bool)
    returns (s: LoopState, step: Step, ghost closed: Closed)
    requires Ready(gs) && ToolCalls(content) == []
    requires sig == ReasoningSignature(content) && advanced == Advanced(s0.lastReasoning, content)
    modifies gs, gs.review, gs.repro, gs.spend
    ensures gs.Valid() && s == s0.(messages := s.messages, lastReasoning := s.lastReasoning) && !step.Cut?
    ensures s.lastReasoning == ReasoningNext(s0.lastReasoning, w, pol, i, content, Whole)
    ensures s.messages ==
            s0.messages + [Message(Assistant, content)] + Afterword(w, pol, i, content, s0.lastReasoning, closed)
    ensures ClosesAt(gs, w, pol, i, content, lastRunFailed, Repro.Core(old(gs.repro.state)), old(gs.Remembered()),
                     closed, gs.Remembered())
    ensures step == StepOf(closed)
    ensures step.Next? ==> Ready(gs) && i < pol.maxIter
    ensures step.Over? && step.result.outcome.Answered? ==> gs.NotBlocked()
    ensures gs.review != null ==> gs.review.rounds <= old(gs.review.rounds) + 1
    ensures Repro.Core(gs.repro.state) == Repro.Core(old(gs.repro.state))
    ensures old(ChargesOn(gs.spend)) <= ChargesOn(gs.spend)
  {
    hide *;
    var answer := TrimSpace(TextOf(content));
    s := s0.(messages := s0.messages + [Message(Assistant, content)]);
    Answering(w, pol, i, content, s0.lastReasoning, lastRunFailed);
    if answer == "" && pol.finishTool != "" && i < pol.maxIter {
      ReadyMeans(gs);
      closed := NotClosed;
      IsSilent(gs, w, pol, i, content, s0.lastReasoning, lastRunFailed, Repro.Core(gs.repro.state), gs.Remembered());
      if advanced {
        assert s.messages + [] == s.messages;
        return s.(lastReasoning := sig), Next, closed;
      }
      return s.(messages := s.messages + [UserMsg(w.silentNudge)]), Next, closed;
    }
    var input := FinishInput(answer, TrimSpace(answer) == "", lastRunFailed, i < pol.maxIter, false);
    s, step, closed := Close(i, s, input, w, gs);
    IsClosed(gs, w, pol, i, content, s0.lastReasoning, lastRunFailed, Repro.Core(old(gs.repro.state)),
             old(gs.Remembered()), closed, gs.Remembered());
  }

  lemma IsSilent(gs: GateKeeper, w: World, pol: LoopPolicy, i: nat, content: seq<Part>, last: string,
          lastRunFailed: bool, repro: Repro.State, m: Memory)
    requires Silent(w, pol, i, content)
    ensures ClosesAt(gs, w, pol, i, content, lastRunFailed, repro, m, NotClosed, m) && StepOf(NotClosed) == Next
    ensures Afterword(w, pol, i, content, last, NotClosed) ==
            if Advanced(last, content) then [] else [UserMsg(w.silentNudge)]
  {
    hide Silent, Acts, Advanced;
  }

  lemma IsClosed(gs: GateKeeper, w: World, pol: LoopPolicy, i: nat, content: seq<Part>, last: string,
          lastRunFailed: bool, repro: Repro.State, m: Memory, closed: Closed, m': Memory)
    requires !Acts(content, pol) && !Silent(w, pol, i, content) && closed.Closed?
    requires gs.Decides(InputAt(w, pol, i, content, lastRunFailed), w.finish(i), repro, m, closed.ruling,
               closed.decision, m')
    ensures ClosesAt(gs, w, pol, i, content, lastRunFailed, repro, m, closed, m')
    ensures Afterword(w, pol, i, content, last, closed) == Feedback(w, closed)
  {
    hide Silent, Acts, Advanced, gs.Decides, InputAt, Feedback;
  }

  lemma {:induction false} Answering(w: World, pol: LoopPolicy, i: nat, content: seq<Part>, last: string,
          lastRunFailed: bool)
    requires ToolCalls(content) == []
    ensures !Acts(content, pol) && !Finishes(content, pol)
    ensures var answer := TrimSpace(TextOf(content));
            && (Silent(w, pol, i, content) <==> answer == "" && pol.finishTool != "" && i < pol.maxIter)
            && InputAt(w, pol, i, content, lastRunFailed) ==
               FinishInput(answer, TrimSpace(answer) == "", lastRunFailed, i < pol.maxIter, false)
    ensures ReasoningNext(last, w, pol, i, content, Whole) ==
            if Silent(w, pol, i, content) && Advanced(last, content) then ReasoningSignature(content) else last
  {
    hide TextOf, ToolCalls, ReasoningSignature;
  }

  /** A turn that calls the finish tool: everything else it asks for runs first, and then the gates decide. */
  method FinishTurn(i: nat, s0: LoopState, content: seq<Part>, f: nat, pol: LoopPolicy, w: World, gs: GateKeeper,
          tr: Tracker.TurnTracker)
    returns (s: LoopState, step: Step, ghost closed: Closed)
    requires Ready(gs) && tr.Valid()
    requires Finishes(content, pol) && f == FindCall(ToolCalls(content), pol.finishTool)
    modifies gs, gs.review, gs.repro, gs.spend, tr
    ensures gs.Valid() && tr.Valid() && tr.observations == old(tr.observations) && s == s0.(messages := s.messages)
    ensures f < |ToolCalls(content)|
    ensures var calls := ToolCalls(content);
            && tr.history == old(tr.history) + FinishEvents(i, calls, |calls|, calls[f].id, w.tools)
            && Repro.Core(gs.repro.state) ==
               ReproOthers(Repro.Core(old(gs.repro.state)), gs.pol.reproFirst, i, calls, |calls|, calls[f].id, w.tools)
    ensures exists rs ::
              && Finished(rs, ToolCalls(content), f, w.finishText(ToolCalls(content)[f]),
                          Scene(i, w.tools, Repro.Core(old(gs.repro.state)), gs.pol.reproFirst))
              && s.messages == s0.messages + [Message(Assistant, content)] + rs + Feedback(w, closed)
    ensures closed.Closed? && step == StepOf(closed) && !step.Cut?
    ensures gs.Decides(InputAt(w, pol, i, content, Tracker.LastFailed(tr.history)), w.finish(i),
              Repro.Core(gs.repro.state),
                       old(gs.Remembered()), closed.ruling, closed.decision, gs.Remembered())
    ensures step.Next? ==> Ready(gs) && i < pol.maxIter
    ensures step.Over? && step.result.outcome.Answered? ==> gs.NotBlocked()
    ensures gs.review != null ==> gs.review.rounds <= old(gs.review.rounds) + 1
    ensures old(ChargesOn(gs.spend)) <= ChargesOn(gs.spend)
  {
    hide *;
    Finishing(w, pol, i, content);
    var calls := ToolCalls(content);
    var text := w.finishText(calls[f]);
    var rs := FinishToolCalls(i, content, f, text, w.tools, gs, tr, s0.messages);
    OthersCore(old(gs.repro.state), gs.pol.reproFirst, i, calls, |calls|, calls[f].id, w.tools);
    tr.ValidMeans();
    s := s0.(messages := s0.messages + [Message(Assistant, content)] + rs);
    var input := FinishInput(text, TrimSpace(text) == "", tr.lastRunFailed, i < pol.maxIter, pol.finishTrusts);
    s, step, closed := Close(i, s, input, w, gs);
  }

  lemma {:induction false} Finishing(w: World, pol: LoopPolicy, i: nat, content: seq<Part>)
    requires Finishes(content, pol)
    ensures !Acts(content, pol) && ToolCalls(content) != []
    ensures var calls := ToolCalls(content);
            var f := FindCall(calls, pol.finishTool);
            && f < |calls|
            && forall failed: bool ::
                 InputAt(w, pol, i, content, failed) ==
                 FinishInput(w.finishText(calls[f]), TrimSpace(w.finishText(calls[f])) == "", failed, i < pol.maxIter,
                             pol.finishTrusts)
  {
    hide TextOf, ToolCalls;
  }

  // ---- turns that act ---------------------------------------------------------------------------------

  /** repeats counts how often the last signature has been repeated at the end of sigs. */
  predicate CountsRepeats(sigs: seq<string>, repeats: nat, last: string) {
    if sigs == [] then repeats == 0 && last == "" else Tracker.CountsStrings(sigs, repeats + 1, last)
  }

  lemma RepeatsAfter(sigs: seq<string>, repeats: nat, last: string, sig: string)
    requires CountsRepeats(sigs, repeats, last) && sig != ""
    ensures CountsRepeats(sigs + [sig], if sig == last then repeats + 1 else 0, sig)
  {
    if sigs == [] {
      Tracker.StringsAfter([], 0, "", sig);
    } else {
      Tracker.StringsAfter(sigs, repeats + 1, last, sig);
    }
  }

  /** The counter tells whether a turn was issued too often. */
  lemma ReissuedIff(pol: LoopPolicy, advanced: bool, sigs: seq<string>, repeats: nat, last: string)
    requires CountsRepeats(sigs, repeats, last) && sigs != []
    ensures Reissued(pol, advanced, sigs) <==> repeats >= 1 && repeats >= RepeatThreshold(pol, advanced)
  {
    hide Tracker.CountsStrings, Tracker.EndsInSeries;
    var limit := RepeatThreshold(pol, advanced);
    Tracker.CountedStrings(sigs, repeats + 1, last, if limit >= 1 then limit + 1 else 2);
  }

  /** The burst after a turn that calls these. */
  function BurstNext(burst: seq<Spiral.Turn>, calls: seq<Call>, w: World): seq<Spiral.Turn> {
    if AllDiscovery(calls) then burst + [TargetsOf(calls, w.targetOf)] else []
  }

  /** The two detectors that look at what a turn asks for, before anything is dispatched. */
  method DetectNoProgress(s0: LoopState, calls: seq<Call>, advanced: bool, reasoning: string, pol: LoopPolicy, w: World,
          sp: Spiral.SpiralState, ghost sigs: seq<string>)
    returns (s: LoopState, kill: Option<RunOutcome>)
    requires sp.Valid() && Explores(sp, pol) && calls != [] && CountsRepeats(sigs, s0.repeats, s0.lastTurnSig)
    modifies sp
    ensures sp.Valid()
    ensures CountsRepeats(sigs + [TurnSignature(calls, w.argOf)], s.repeats, s.lastTurnSig)
    ensures s == s0.(repeats := s.repeats, lastTurnSig := s.lastTurnSig, lastReasoning := s.lastReasoning)
    ensures var repeated := Reissued(pol, advanced, sigs + [TurnSignature(calls, w.argOf)]);
            && kill == (if repeated then Some(KilledRepeat)
                        else if Wandered(pol, calls, BurstNext(old(sp.burst), calls, w)) then Some(KilledSpiral)
                          else None)
            && s.lastReasoning == (if repeated then s0.lastReasoning else reasoning)
            && sp.burst == (if repeated then old(sp.burst) else BurstNext(old(sp.burst), calls, w))
  {
    hide *;
    var sig := TurnSignature(calls, w.argOf);
    SignatureNotEmpty(calls, w.argOf);
    RepeatsAfter(sigs, s0.repeats, s0.lastTurnSig, sig);
    ReissuedIff(pol, advanced, sigs + [sig], if sig == s0.lastTurnSig then s0.repeats + 1 else 0, sig);
    BurstIs(sp.burst, calls, w);
    s := s0;
    if sig == s.lastTurnSig {
      s := s.(repeats := s.repeats + 1);
      if s.repeats >= RepeatThreshold(pol, advanced) {
        return s, Some(KilledRepeat);
      }
    } else {
      s := s.(repeats := 0);
    }
    s := s.(lastTurnSig := sig, lastReasoning := reasoning);
    if AllDiscovery(calls) {
      var kind := sp.ObserveDiscoveryTurn(TargetsOf(calls, w.targetOf));
      WanderedIff(sp, pol, calls);
      return s, if kind.NoKill? then None else Some(KilledSpiral);
    }
    sp.Reset();
    WanderedIff(sp, pol, calls);
    return s, None;
  }

  /** The exploration detector runs with the limits of the policy. */
  predicate Explores(sp: Spiral.SpiralState, pol: LoopPolicy) {
    sp.window == pol.window && sp.wanderMultiple == pol.wanderMultiple && sp.frontierCap == pol.frontierCap
  }

  lemma BurstIs(burst: seq<Spiral.Turn>, calls: seq<Call>, w: World)
    ensures BurstNext(burst, calls, w) == if AllDiscovery(calls) then burst + [TargetsOf(calls, w.targetOf)] else []
  {
  }

  lemma WanderedIff(sp: Spiral.SpiralState, pol: LoopPolicy, calls: seq<Call>)
    requires sp.Valid() && Explores(sp, pol)
    ensures Wandered(pol, calls, sp.burst) <==> AllDiscovery(calls) && !sp.Alive()
  {
    hide Spiral.Spent, AllDiscovery;
    sp.AliveIff();
  }

  /** Appends hints; they never get between a call and its result. */
  method Nudge(s0: LoopState, hints: seq<string>) returns (s: LoopState)
    ensures s == s0.(messages := s0.messages + Hints(hints))
  {
    s := s0;
    var k := 0;
    assert s0.messages + Hints(hints[..0]) == s0.messages;
    while k < |hints|
      invariant k <= |hints| && s == s0.(messages := s0.messages + Hints(hints[..k]))
    {
      assert Hints(hints[..k + 1]) == Hints(hints[..k]) + [UserMsg(hints[k])];
      s := s.(messages := s.messages + [UserMsg(hints[k])]);
      k := k + 1;
    }
    assert hints[..k] == hints;
  }

  /** Dispatches the calls of a turn, and looks at what came back; the results come before any hint. */
  method ActAndObserve(i: nat, s0: LoopState, content: seq<Part>, pol: LoopPolicy, w: World, gs: GateKeeper,
          tr: Tracker.TurnTracker)
    returns (s: LoopState, kill: Option<RunOutcome>, ghost reach: Reach)
    requires tr.Valid() && ToolCalls(content) != []
    requires tr.maxStagnant == pol.maxStagnant && tr.maxReasoningRepeats == pol.maxReasoningRepeats
    modifies gs.repro, tr
    ensures tr.Valid() && s == s0.(messages := s.messages)
    ensures reach.Halted? || reach.Stalled? || reach.Whole?
    ensures kill == KillOf(reach)
    ensures Dispatches(w, pol, i, ToolCalls(content), old(tr.history), tr.observations, reach)
    ensures var calls := ToolCalls(content);
            && tr.history == old(tr.history) + ActEvents(i, calls, DispatchedBy(reach, calls), w.tools)
            && tr.observations ==
               (if reach.Halted? then old(tr.observations) else old(tr.observations) + [ObservationKey(i, calls, 0, w)])
            && gs.repro.state ==
               ReproActs(old(gs.repro.state), gs.pol.reproFirst, i, calls, DispatchedBy(reach, calls), w.tools)
    ensures var e := Scene(i, w.tools, Repro.Core(old(gs.repro.state)), gs.pol.reproFirst);
            exists rs, hints :: Acted(s0.messages, s.messages, content, w, e, reach, tr.observations, rs, hints)
  {
    hide *;
    var calls := ToolCalls(content);
    ghost var e := Scene(i, w.tools, Repro.Core(gs.repro.state), gs.pol.reproFirst);
    var rs, killed, last := DispatchCalls(i, calls, w.tools, gs, tr);
    DispatchedIs(last, calls);
    DispatchedMeans(last, calls);
    s := s0.(messages := s0.messages + [Message(Assistant, content)] + rs);
    if killed {
      HaltedHere(w, pol, i, calls, old(tr.history), tr.observations, last);
      HasActed(s0.messages, content, w, e, Halted(last), tr.observations, rs, 0);
      return s, Some(KilledStagnant), Halted(last);
    }
    var key := ObservationKey(i, calls, 0, w);
    ObservationNotEmpty(i, calls, w);
    var stalled, count := tr.ObserveToolObservation(key);
    CountsObservations(pol, tr);
    if stalled {
      NotHalted(w, pol, i, calls, old(tr.history), tr.observations, Stalled);
      HasActed(s0.messages, content, w, e, Stalled, tr.observations, rs, 0);
      return s, Some(KilledRepeat), Stalled;
    }
    NotHalted(w, pol, i, calls, old(tr.history), tr.observations, Whole);
    HasActed(s0.messages, content, w, e, Whole, tr.observations, rs, count);
    ghost var told := s.messages;
    if 3 <= count <= 5 {
      s := s.(messages := s.messages + [UserMsg(w.repeatNudge(count))]);
    }
    s := Nudge(s, w.nudges(i));
    HintsJoin(told, w, i, count);
    return s, None, Whole;
  }

  /** How far the dispatch of a turn got is what its results decide. */
  ghost predicate Dispatches(w: World, pol: LoopPolicy, i: nat, calls: seq<Call>, history: seq<Tracker.Event>,
          observations: seq<string>, reach: Reach)
  {
    && (reach.Halted? ==> reach.last < |calls| && StagnatesAt(pol.maxStagnant, history, i, calls, reach.last, w.tools))
    && (forall n :: 0 <= n < |calls| && !(reach.Halted? && reach.last <= n) ==>
         !StagnatesAt(pol.maxStagnant, history, i, calls, n, w.tools))
    && (!reach.Halted? ==> (reach.Stalled? <==> Echoes(pol, observations)))
  }

  lemma HaltedHere(w: World, pol: LoopPolicy, i: nat, calls: seq<Call>, history: seq<Tracker.Event>,
          observations: seq<string>, last: nat)
    requires last < |calls| && StagnatesAt(pol.maxStagnant, history, i, calls, last, w.tools)
    requires forall n :: 0 <= n < last ==> !StagnatesAt(pol.maxStagnant, history, i, calls, n, w.tools)
    ensures Dispatches(w, pol, i, calls, history, observations, Halted(last))
            && KillOf(Halted(last)) == Some(KilledStagnant)
  {
    hide StagnatesAt, Echoes;
  }

  lemma NotHalted(w: World, pol: LoopPolicy, i: nat, calls: seq<Call>, history: seq<Tracker.Event>,
          observations: seq<string>, reach: Reach)
    requires forall n :: 0 <= n < |calls| ==> !StagnatesAt(pol.maxStagnant, history, i, calls, n, w.tools)
    requires if Echoes(pol, observations) then reach.Stalled? else reach.Whole?
    ensures Dispatches(w, pol, i, calls, history, observations, reach)
    ensures KillOf(reach) == if reach.Stalled? then Some(KilledRepeat) else None
  {
    hide StagnatesAt, Echoes;
  }

  lemma DispatchedMeans(last: nat, calls: seq<Call>)
    ensures last < |calls| ==> DispatchedBy(Halted(last), calls) == last + 1
    ensures DispatchedBy(Stalled, calls) == |calls| && DispatchedBy(Whole, calls) == |calls|
    ensures DispatchedBy(Repeated, calls) == 0 && DispatchedBy(Spiralled, calls) == 0
  {
  }

  lemma CountsObservations(pol: LoopPolicy, tr: Tracker.TurnTracker)
    requires tr.Valid() && tr.maxReasoningRepeats == pol.maxReasoningRepeats && tr.toolObsRepeat >= 1
    ensures Echoes(pol, tr.observations) <==> tr.toolObsRepeat >= tr.maxReasoningRepeats
    ensures Tracker.LongestStrings(tr.observations, tr.toolObsRepeat)
  {
    hide Tracker.LongestStrings, Tracker.EndsInSeries, Tracker.CountsFailures, Tracker.CountsPasses, Tracker.LastFailed;
    Tracker.CountedStrings(tr.observations, tr.toolObsRepeat, tr.lastToolObsFP,
                           if pol.maxReasoningRepeats >= 1 then pol.maxReasoningRepeats else 1);
  }

  /** With these hints the turn has acted. */
  lemma {:induction false} HasActed(before: seq<Message>, content: seq<Part>, w: World, e: Scene, reach: Reach,
          observations: seq<string>, rs: seq<Message>, count: nat)
    requires |rs| == |ToolCalls(content)|
    requires InOrder(rs, ToolCalls(content), 0,
                     Shown(e, ToolCalls(content), if reach.Halted? then reach.last else |rs|))
    requires reach.Whole? ==> Tracker.LongestStrings(observations, count)
    ensures var said := before + [Message(Assistant, content)] + rs;
            var hints := if reach.Whole? then Hints(RepeatHint(w, count) + w.nudges(e.i)) else [];
            && Acted(before, said + hints, content, w, e, reach, observations, rs, hints)
            && (!reach.Whole? ==> said + hints == said)
  {
    hide InOrder, ToolCalls, Shown, Hints, Tracker.LongestStrings;
  }

  lemma HintsJoin(told: seq<Message>, w: World, i: nat, count: nat)
    ensures told + Hints(RepeatHint(w, count) + w.nudges(i)) ==
            (if 3 <= count <= 5 then told + [UserMsg(w.repeatNudge(count))] else told) + Hints(w.nudges(i))
  {
    assert Hints(RepeatHint(w, count) + w.nudges(i)) == Hints(RepeatHint(w, count)) + Hints(w.nudges(i));
  }

  /** The detectors, and what they have seen. */
  ghost predicate Watching(pol: LoopPolicy, tr: Tracker.TurnTracker, sp: Spiral.SpiralState)
    reads tr, sp
  {
    && tr.Valid() && sp.Valid() && Explores(sp, pol)
    && tr.maxStagnant == pol.maxStagnant && tr.maxReasoningRepeats == pol.maxReasoningRepeats
  }

  ghost predicate Saw(seen: Seen, s: LoopState, tr: Tracker.TurnTracker, sp: Spiral.SpiralState)
    reads tr, sp
  {
    && CountsRepeats(seen.sigs, s.repeats, s.lastTurnSig)
    && tr.history == seen.history && tr.observations == seen.observations && sp.burst == seen.burst
  }

  lemma WatchingMeans(pol: LoopPolicy, tr: Tracker.TurnTracker, sp: Spiral.SpiralState, seen: Seen, s: LoopState)
    ensures Watching(pol, tr, sp) <==>
            && tr.Valid() && sp.Valid() && Explores(sp, pol)
            && tr.maxStagnant == pol.maxStagnant && tr.maxReasoningRepeats == pol.maxReasoningRepeats
    ensures Saw(seen, s, tr, sp) <==>
            && CountsRepeats(seen.sigs, s.repeats, s.lastTurnSig)
            && tr.history == seen.history && tr.observations == seen.observations && sp.burst == seen.burst
  {
    hide CountsRepeats, Explores, tr.Valid, sp.Valid;
  }

  /** A turn that acts: the detectors of repetition and exploration first, then the calls. */
  method ActTurn(i: nat, s0: LoopState, content: seq<Part>, advanced: bool, reasoning: string, pol: LoopPolicy,
          w: World, gs: GateKeeper, tr: Tracker.TurnTracker, sp: Spiral.SpiralState, ghost seen0: Seen)
    returns (s: LoopState, step: Step, ghost reach: Reach)
    requires Watching(pol, tr, sp) && Saw(seen0, s0, tr, sp)
    requires Acts(content, pol) && reasoning == ReasoningSignature(content)
    modifies gs.repro, tr, sp
    ensures Watching(pol, tr, sp) && Saw(SeenNext(seen0, w, pol, i, content, reach), s, tr, sp)
    ensures Repro.Core(gs.repro.state) ==
            ReproNext(Repro.Core(old(gs.repro.state)), gs.pol.reproFirst, w, pol, i, content, reach)
    ensures s == s0.(messages := s.messages, repeats := s.repeats, lastTurnSig := s.lastTurnSig,
                     lastReasoning := s.lastReasoning)
    ensures s.lastReasoning == ReasoningNext(s0.lastReasoning, w, pol, i, content, reach)
    ensures Decided(w, pol, i, content, advanced, seen0, reach)
    ensures Wrote(w, pol, Scene(i, w.tools, Repro.Core(old(gs.repro.state)), gs.pol.reproFirst), content, reach,
                  tr.observations, [], s0.messages, s.messages)
    ensures step == if KillOf(reach).Some? then Cut(KillOf(reach).value) else Next
  {
    hide *;
    WatchingMeans(pol, tr, sp, seen0, s0);
    Acting(pol, content);
    var calls := ToolCalls(content);
    var kill;
    s, kill := DetectNoProgress(s0, calls, advanced, reasoning, pol, w, sp, seen0.sigs);
    if kill.Some? {
      reach := if kill.value.KilledRepeat? then Repeated else Spiralled;
      NotDispatched(seen0, gs.repro.state, gs.pol.reproFirst, w, pol, i, content, advanced, s0.lastReasoning, reach,
          s.messages);
      WatchingMeans(pol, tr, sp, SeenNext(seen0, w, pol, i, content, reach), s);
      return s, Cut(kill.value), reach;
    }
    s, kill, reach := ActAndObserve(i, s, content, pol, w, gs, tr);
    WasDispatched(seen0, old(gs.repro.state), gs.pol.reproFirst, w, pol, i, content, advanced, s0.lastReasoning, reach,
        tr.observations,
                  s0.messages, s.messages);
    WatchingMeans(pol, tr, sp, SeenNext(seen0, w, pol, i, content, reach), s);
    return s, if kill.Some? then Cut(kill.value) else Next, reach;
  }

  lemma {:induction false} Acting(pol: LoopPolicy, content: seq<Part>)
    requires Acts(content, pol)
    ensures ToolCalls(content) != []
  {
  }

  /** A turn that is cut before dispatch. */
  lemma {:induction false} NotDispatched(seen: Seen, repro: Repro.State, reproFirst: bool, w: World, pol: LoopPolicy,
          i: nat, content: seq<Part>, advanced: bool, last: string, reach: Reach, msgs: seq<Message>)
    requires Acts(content, pol) && (reach.Repeated? || reach.Spiralled?)
    requires var calls := ToolCalls(content);
             var repeated := Reissued(pol, advanced, seen.sigs + [TurnSignature(calls, w.argOf)]);
             (reach.Repeated? <==> repeated) && (!repeated ==> Wandered(pol, calls, BurstNext(seen.burst, calls, w)))
    ensures var calls, next := ToolCalls(content), SeenNext(seen, w, pol, i, content, reach);
            && next == Seen(seen.sigs + [TurnSignature(calls, w.argOf)], seen.observations, seen.history,
                            if reach.Repeated? then seen.burst else BurstNext(seen.burst, calls, w))
            && ReproNext(Repro.Core(repro), reproFirst, w, pol, i, content, reach) == Repro.Core(repro)
            && ReasoningNext(last, w, pol, i, content, reach) ==
               (if reach.Repeated? then last else ReasoningSignature(content))
            && Decided(w, pol, i, content, advanced, seen, reach)
            && Wrote(w, pol, Scene(i, w.tools, Repro.Core(repro), reproFirst), content, reach, seen.observations, [],
                 msgs, msgs)
            && KillOf(reach) == Some(if reach.Repeated? then KilledRepeat else KilledSpiral)
  {
    hide Acts, Reissued, Wandered, ToolCalls, TurnSignature, ReasoningSignature, AllDiscovery, StagnatesAt, Repro.Core,
      Echoes;
    NothingDispatched(Repro.Core(repro), reproFirst, i, ToolCalls(content), w.tools);
    assert seen.history + [] == seen.history;
  }

  /** A turn that was dispatched. */
  lemma {:induction false} WasDispatched(seen: Seen, repro: Repro.State, reproFirst: bool, w: World, pol: LoopPolicy,
          i: nat, content: seq<Part>, advanced: bool, last: string, reach: Reach, observations: seq<string>,
          before: seq<Message>, after: seq<Message>)
    requires Acts(content, pol) && (reach.Halted? || reach.Stalled? || reach.Whole?)
    requires var calls := ToolCalls(content);
             && !Reissued(pol, advanced, seen.sigs + [TurnSignature(calls, w.argOf)])
             && !Wandered(pol, calls, BurstNext(seen.burst, calls, w))
             && observations ==
                (if reach.Halted? then seen.observations else seen.observations + [ObservationKey(i, calls, 0, w)])
    requires Dispatches(w, pol, i, ToolCalls(content), seen.history, observations, reach)
    requires var e := Scene(i, w.tools, Repro.Core(repro), reproFirst);
             exists rs, hints :: Acted(before, after, content, w, e, reach, observations, rs, hints)
    ensures var calls, next := ToolCalls(content), SeenNext(seen, w, pol, i, content, reach);
            && next == Seen(seen.sigs + [TurnSignature(calls, w.argOf)], observations,
                            seen.history + ActEvents(i, calls, DispatchedBy(reach, calls), w.tools),
                            BurstNext(seen.burst, calls, w))
            && ReproNext(Repro.Core(repro), reproFirst, w, pol, i, content, reach) ==
               Repro.Core(ReproActs(repro, reproFirst, i, calls, DispatchedBy(reach, calls), w.tools))
            && ReasoningNext(last, w, pol, i, content, reach) == ReasoningSignature(content)
            && Decided(w, pol, i, content, advanced, seen, reach)
            && Wrote(w, pol, Scene(i, w.tools, Repro.Core(repro), reproFirst), content, reach, observations, [], before,
                 after)
  {
    hide Acts, Acted, Reissued, Wandered, ToolCalls, TurnSignature, ReasoningSignature, AllDiscovery, StagnatesAt,
      Repro.Core, Echoes, ActEvents, ReproActs, ObservationKey;
    ActsCore(repro, reproFirst, i, ToolCalls(content), DispatchedBy(reach, ToolCalls(content)), w.tools);
  }

  /** A response, taken in: the turn answers, finishes, or acts. */
  method TakeTurn(i: nat, s0: LoopState, content: seq<Part>, pol: LoopPolicy, w: World, gs: GateKeeper,
          tr: Tracker.TurnTracker, sp: Spiral.SpiralState, ghost seen0: Seen)
    returns (s: LoopState, step: Step, ghost reach: Reach, ghost closed: Closed)
    requires Ready(gs) && Watching(pol, tr, sp) && Saw(seen0, s0, tr, sp)
    modifies gs, gs.review, gs.repro, gs.spend, tr, sp
    ensures gs.Valid() && (!step.Over? ==> Ready(gs))
    ensures Watching(pol, tr, sp) && Saw(SeenNext(seen0, w, pol, i, content, reach), s, tr, sp)
    ensures Repro.Core(gs.repro.state) ==
            ReproNext(Repro.Core(old(gs.repro.state)), gs.pol.reproFirst, w, pol, i, content, reach)
    ensures s == s0.(messages := s.messages, repeats := s.repeats, lastTurnSig := s.lastTurnSig,
                     lastReasoning := s.lastReasoning)
    ensures s.lastReasoning == ReasoningNext(s0.lastReasoning, w, pol, i, content, reach)
    ensures if Acts(content, pol) then Decided(w, pol, i, content, Advanced(s0.lastReasoning, content), seen0, reach)
            else reach.Whole?
    ensures Wrote(w, pol, Scene(i, w.tools, Repro.Core(old(gs.repro.state)), gs.pol.reproFirst), content, reach,
                  tr.observations, Afterword(w, pol, i, content, s0.lastReasoning, closed), s0.messages, s.messages)
    ensures ClosesAt(gs, w, pol, i, content, Tracker.LastFailed(tr.history), Repro.Core(gs.repro.state),
                     old(gs.Remembered()), closed, gs.Remembered())
    ensures step == if Acts(content, pol) && KillOf(reach).Some? then Cut(KillOf(reach).value) else StepOf(closed)
    ensures step.Over? && step.result.outcome.Answered? ==> gs.NotBlocked()
    ensures gs.review != null ==> gs.review.rounds <= old(gs.review.rounds) + 1
    ensures old(ChargesOn(gs.spend)) <= ChargesOn(gs.spend)
  {
    hide *;
    WatchingMeans(pol, tr, sp, seen0, s0);
    tr.ValidMeans();
    ReadyMeans(gs);
    var reasoning := ReasoningSignature(content);
    var advanced := reasoning != "" && reasoning != s0.lastReasoning;
    var calls := ToolCalls(content);
    TurnKinds(pol, content, s0.lastReasoning);
    if calls == [] {
      s, step, closed := AnswerTurn(i, s0, content, advanced, reasoning, pol, w, gs, tr.lastRunFailed);
      Answering(w, pol, i, content, s0.lastReasoning, tr.lastRunFailed);
      HasAnswered(seen0, Repro.Core(old(gs.repro.state)), gs.pol.reproFirst, w, pol, i, content,
                  Afterword(w, pol, i, content, s0.lastReasoning, closed), s0.messages, s.messages);
      WatchingMeans(pol, tr, sp, SeenNext(seen0, w, pol, i, content, Whole), s);
      return s, step, Whole, closed;
    }
    if pol.finishTool != "" {
      var f := FindCall(calls, pol.finishTool);
      if f < |calls| {
        s, step, closed := FinishTurn(i, s0, content, f, pol, w, gs, tr);
        HasFinished(seen0, Repro.Core(old(gs.repro.state)), gs.pol.reproFirst, w, pol, i, content, Feedback(w, closed),
                    s0.lastReasoning, s0.messages, s.messages);
        IsClosed(gs, w, pol, i, content, s0.lastReasoning, Tracker.LastFailed(tr.history), Repro.Core(gs.repro.state),
                 old(gs.Remembered()), closed, gs.Remembered());
        WatchingMeans(pol, tr, sp, SeenNext(seen0, w, pol, i, content, Whole), s);
        return s, step, Whole, closed;
      }
    }
    s, step, reach := ActTurn(i, s0, content, advanced, reasoning, pol, w, gs, tr, sp, seen0);
    closed := NotClosed;
    HasActedOnly(gs, w, pol, i, content, s0.lastReasoning, Tracker.LastFailed(tr.history), Repro.Core(gs.repro.state),
                 gs.Remembered());
    SamePrefix(ChargesOn(gs.spend));
  }

  lemma {:induction false} HasActedOnly(gs: GateKeeper, w: World, pol: LoopPolicy, i: nat, content: seq<Part>,
          last: string, lastRunFailed: bool, repro: Repro.State, m: Memory)
    requires Acts(content, pol)
    ensures ClosesAt(gs, w, pol, i, content, lastRunFailed, repro, m, NotClosed, m) && StepOf(NotClosed) == Next
    ensures Afterword(w, pol, i, content, last, NotClosed) == []
  {
    hide ToolCalls, TextOf, Advanced;
  }

  lemma SamePrefix(charges: seq<Charge>)
    ensures charges <= charges
  {
  }

  lemma {:induction false} TurnKinds(pol: LoopPolicy, content: seq<Part>, last: string)
    ensures ToolCalls(content) == [] ==> !Acts(content, pol) && !Finishes(content, pol)
    ensures var calls := ToolCalls(content);
            && FindCall(calls, pol.finishTool) <= |calls|
            && (Acts(content, pol) <==>
                 calls != [] && (pol.finishTool == "" || FindCall(calls, pol.finishTool) == |calls|))
            && (Finishes(content, pol) <==> pol.finishTool != "" && FindCall(calls, pol.finishTool) < |calls|)
    ensures Advanced(last, content) <==> ReasoningSignature(content) != "" && ReasoningSignature(content) != last
  {
    hide ToolCalls, ReasoningSignature;
  }

  lemma HasAnswered(seen: Seen, repro: Repro.State, reproFirst: bool, w: World, pol: LoopPolicy, i: nat,
          content: seq<Part>, tail: seq<Message>, before: seq<Message>, after: seq<Message>)
    requires !Acts(content, pol) && !Finishes(content, pol)
    requires after == before + [Message(Assistant, content)] + tail
    ensures SeenNext(seen, w, pol, i, content, Whole) == seen
            && ReproNext(repro, reproFirst, w, pol, i, content, Whole) == repro
    ensures Wrote(w, pol, Scene(i, w.tools, repro, reproFirst), content, Whole, seen.observations, tail, before, after)
  {
    hide Acts, Finishes, ToolCalls;
  }

  lemma {:induction false} HasFinished(seen: Seen, repro: Repro.State, reproFirst: bool, w: World, pol: LoopPolicy,
          i: nat, content: seq<Part>, tail: seq<Message>, last: string, before: seq<Message>, after: seq<Message>)
    requires !Acts(content, pol) && Finishes(content, pol)
             && FindCall(ToolCalls(content), pol.finishTool) < |ToolCalls(content)|
    requires var calls := ToolCalls(content);
             var f := FindCall(calls, pol.finishTool);
             exists rs :: Finished(rs, calls, f, w.finishText(calls[f]), Scene(i, w.tools, repro, reproFirst))
                          && after == before + [Message(Assistant, content)] + rs + tail
    ensures var calls := ToolCalls(content);
            var f := FindCall(calls, pol.finishTool);
            && SeenNext(seen, w, pol, i, content, Whole) ==
               seen.(history := seen.history + FinishEvents(i, calls, |calls|, calls[f].id, w.tools))
            && ReproNext(repro, reproFirst, w, pol, i, content, Whole) ==
               ReproOthers(repro, reproFirst, i, calls, |calls|, calls[f].id, w.tools)
            && ReasoningNext(last, w, pol, i, content, Whole) == last
    ensures Wrote(w, pol, Scene(i, w.tools, repro, reproFirst), content, Whole, seen.observations, tail, before, after)
    ensures !Silent(w, pol, i, content)
  {
    hide Acts, Finishes, ToolCalls, Finished, ReproOthers, FinishEvents, FindCall;
    FinishesNotSilent(w, pol, i, content);
  }

  lemma FinishesNotSilent(w: World, pol: LoopPolicy, i: nat, content: seq<Part>)
    requires Finishes(content, pol)
    ensures !Silent(w, pol, i, content)
  {
  }

  // ---- the run ---------------------------------------------------------------------------------------------

  /** The loop's variables are what the record of the run says. */
  ghost predicate Fits(s: LoopState, r: Run, trace: seq<Record>) {
    && s.messages == MessagesAfter(r, trace) && s.calls == CallsAfter(trace) && s.Tally() == TallyOf(r, trace)
    && s.lastReasoning == ReasoningOf(r, trace) && s.lastStanding == LastStanding(r.w, |trace|)
  }

  /** So are the gates, up to how a locked test did and to what the review has cost. */
  ghost predicate Guards(gs: GateKeeper, r: Run, trace: seq<Record>)
    reads gs, gs.review, gs.repro, gs.spend
  {
    && r.gs == gs && r.price == PriceOf(gs.spend) && gs.Remembered() == MemoryAfter(r, trace)
    && Repro.Core(gs.repro.state) == ReproOf(r, trace) && ChargesAfter(r, trace) <= ChargesOn(gs.spend)
  }

  lemma {:induction false} GuardsMean(gs: GateKeeper, r: Run, trace: seq<Record>)
    ensures Guards(gs, r, trace) <==>
            && r.gs == gs && r.price == PriceOf(gs.spend) && gs.Remembered() == MemoryAfter(r, trace)
            && Repro.Core(gs.repro.state) == ReproOf(r, trace) && ChargesAfter(r, trace) <= ChargesOn(gs.spend)
    ensures r.price == PriceOf(gs.spend) ==> (r.price.None? <==> gs.spend == null)
  {
  }

  /** Why a run stopped that its own finish did not end. */
  ghost predicate StoppedFor(o: RunOutcome, r: Run, trace: seq<Record>) {
    var next := |trace| + 1;
    if trace != [] && Latest(trace).reach.Failed? then
      var f := r.w.provider(Latest(trace).call).fault;
      f.Some? && if r.w.callDeadline(|trace|) then o.HitDeadline?
                 else if f.value.contextLength then o.HitContextLimit?
                 else if r.w.callCanceled(|trace|) then o.Canceled? else o.ProviderErr?
    else if !Uncut(trace) then KillOf(Latest(trace).reach) == Some(o)
    else if |trace| >= r.pol.maxIter then o.HitCap?
    else if r.w.canceled(next) then o.Canceled?
    else if r.w.deadline(next) then o.HitDeadline?
    else o.HitBudget? && exists charges :: ChargesAfter(r, trace) <= charges
                                           && OverBudget(r.pol, r.price, TallyOf(r, trace).usage.total, charges)
  }

  /** The run is over without an upgrade: it was stopped, or the gates decided so at the finish of its last turn. */
  ghost predicate IsOver(gs: GateKeeper, r: Run, trace: seq<Record>, v: Result)
    reads gs.review
  {
    || ((v == Result(Canceled, "", None) || v == Result(ProviderErr, "", None)) && StoppedFor(v.outcome, r, trace))
    || (trace != [] && StepOf(Latest(trace).closed) == Over(v) && (v.outcome.Answered? ==> gs.NotBlocked()))
  }

  /** The run was cut, and the gates had their last word. */
  ghost predicate Upgraded(gs: GateKeeper, r: Run, trace: seq<Record>, o: RunOutcome, v: Result)
    reads gs, gs.review
  {
    var clears := gs.Upgradable(r.w.upgrade, ReproOf(r, trace));
    && (clears && gs.review != null ==>
         && gs.ruling.Some? && MemoryAfter(r, trace).review.Some?
         && gs.review.Ruled(false, r.w.upgrade.review, MemoryAfter(r, trace).review.value, gs.ruling.value,
                            gs.review.Remembered()))
    && if clears && gs.ReviewPassed() then v == Result(Answered, gs.RescuedAnswer(""), Some(o)) && gs.NotBlocked()
       else v == Result(gs.NotRescued(o, r.w.upgrade, ReproOf(r, trace)), "", None)
  }

  /** How a run ends. */
  ghost predicate Verdict(gs: GateKeeper, r: Run, trace: seq<Record>, v: Result)
    reads gs, gs.review
  {
    IsOver(gs, r, trace, v) || exists o :: StoppedFor(o, r, trace) && Upgraded(gs, r, trace, o, v)
  }

  /** The result of a run: prose the model wrote on the way stands in for an answer that is missing. */
  function ResultOf(r: Run, trace: seq<Record>, v: Result): RunResult {
    var a := TallyOf(r, trace);
    RunResult(v.outcome, if v.answer == "" && !v.outcome.Answered? then a.text else v.answer, v.rescuedFrom,
              a.iterations, MessagesAfter(r, trace), a.usage, a.lastUsage, CallsAfter(trace))
  }

  lemma NotStarted(gs: GateKeeper, r: Run, trace: seq<Record>, s: LoopState, step: Step)
    requires Fits(s, r, trace) && Guards(gs, r, trace) && Uncut(trace) && |trace| < r.pol.maxIter
    requires step.Over? <==> r.w.canceled(|trace| + 1)
    requires step.Over? ==> step.result == Result(Canceled, "", None)
    requires step.Cut? ==> step.outcome == if r.w.deadline(|trace| + 1) then HitDeadline else HitBudget
    requires step.Cut? && !r.w.deadline(|trace| + 1) ==>
               OverBudget(r.pol, PriceOf(gs.spend), s.usage.total, ChargesOn(gs.spend))
    ensures step.Cut? ==> StoppedFor(step.outcome, r, trace)
    ensures step.Over? ==> IsOver(gs, r, trace, step.result)
  {
    hide OverBudget, PriceOf, ChargesAfter, SeenOf, MessagesAfter, ReproOf, ReasoningOf, TallyOf, CallsAfter,
      LastStanding;
  }

  /** A turn starts where the record says. */
  lemma HasStarted(gs: GateKeeper, r: Run, trace: seq<Record>, s: LoopState, t: Record)
    requires Fits(s, r, trace) && Guards(gs, r, trace) && Uncut(trace)
    requires !r.w.canceled(|trace| + 1) && !r.w.deadline(|trace| + 1)
    requires t.start == Start(s.usage.total, ChargesOn(gs.spend)) && Affordable(r.pol, PriceOf(gs.spend), t.start)
    requires t.sent == s.messages + Block(r.w, |trace| + 1)
             && t.call + 1 == s.calls + RecoverTurn(r.w.provider, s.calls, t.sent).calls
    ensures Starts(r, trace, t) && BaseOf(r, trace, t) == RecoverTurn(r.w.provider, s.calls, t.sent).rec.Apply(t.sent)
    ensures CallsAfter(trace) == s.calls
  {
    hide Affordable, PriceOf, ChargesAfter, SeenOf, MessagesAfter, ReproOf, ReasoningOf, TallyOf, CallsAfter,
      LastStanding, RecoverTurn, Block;
  }

  /** A turn is recorded. */
  lemma {:induction false} IsRecorded(r: Run, trace: seq<Record>, t: Record, s0: LoopState, s: LoopState)
    requires IsTrace(r, trace) && Fits(s0, r, trace) && Follows(r, trace, t)
    requires s.messages == t.after && s.calls == t.call + 1 && s.lastStanding == LastStanding(r.w, |trace| + 1)
    requires s.Tally() == TallyNext(s0.Tally(), r.w, |trace| + 1, t.call, t.reach.Failed?)
    requires s.lastReasoning == ReasoningNext(s0.lastReasoning, r.w, r.pol, |trace| + 1, ContentAt(r.w, t), t.reach)
    ensures IsTrace(r, trace + [t]) && Fits(s, r, trace + [t])
  {
    hide IsTrace, Follows, SeenOf, MessagesAfter, ReproOf, ReasoningOf, TallyOf, CallsAfter, LastStanding, TallyNext,
      ReasoningNext, ContentAt, s.Tally, s0.Tally;
    TraceSnoc(r, trace, t);
    OfSnoc(r, trace, t);
  }

  /** A call that failed is all there was to its turn. */
  lemma {:induction false} FailedTurn(r: Run, trace: seq<Record>, t: Record)
    requires Starts(r, trace, t) && t.reach.Failed? && r.w.provider(t.call).fault.Some?
             && t.after == BaseOf(r, trace, t) && t.closed.NotClosed? && t.memory == MemoryAfter(r, trace)
    ensures Follows(r, trace, t)
    ensures var content := ContentAt(r.w, t);
            && SeenNext(SeenOf(r, trace), r.w, r.pol, |trace| + 1, content, Failed) == SeenOf(r, trace)
            && ReproNext(ReproOf(r, trace), r.gs.pol.reproFirst, r.w, r.pol, |trace| + 1, content, Failed) ==
               ReproOf(r, trace)
            && ReasoningNext(ReasoningOf(r, trace), r.w, r.pol, |trace| + 1, content, Failed) == ReasoningOf(r, trace)
  {
    hide Starts, BaseOf, SeenOf, ReproOf, ReasoningOf, ContentAt, Acts, Decided;
  }

  /** What the record says after a call that failed. */
  lemma {:induction false} RecordFailed(gs: GateKeeper, r: Run, trace0: seq<Record>, t: Record, s0: LoopState,
          s: LoopState, step: Step)
    requires IsTrace(r, trace0) && Fits(s0, r, trace0)
    requires Starts(r, trace0, t) && t.reach.Failed? && r.w.provider(t.call).fault.Some?
             && t.after == BaseOf(r, trace0, t) && t.closed.NotClosed? && t.memory == MemoryAfter(r, trace0)
    requires s.messages == t.after && s.calls == t.call + 1 && s.lastStanding == LastStanding(r.w, |trace0| + 1)
    requires s.Tally() == TallyNext(s0.Tally(), r.w, |trace0| + 1, t.call, true) && s.lastReasoning == s0.lastReasoning
    requires step == Classified(r.w.callDeadline(|trace0| + 1), r.w.callCanceled(|trace0| + 1),
               r.w.provider(t.call).fault.value)
    ensures var trace := trace0 + [t];
            && IsTrace(r, trace) && Fits(s, r, trace) && SeenOf(r, trace) == SeenOf(r, trace0)
            && ReproOf(r, trace) == ReproOf(r, trace0) && MemoryAfter(r, trace) == MemoryAfter(r, trace0)
            && ChargesAfter(r, trace) ==
               (if r.price.None? then [] else t.start.charges + TurnCharge(r.w, r.pol.solver, t.call, true))
            && !step.Next? && (step.Cut? ==> StoppedFor(step.outcome, r, trace))
            && (step.Over? ==> IsOver(gs, r, trace, step.result))
  {
    hide *;
    var trace := trace0 + [t];
    FitsMeans(s0, r, trace0);
    FailedTurn(r, trace0, t);
    IsRecorded(r, trace0, t, s0, s);
    TraceSnoc(r, trace0, t);
    OfSnoc(r, trace0, t);
    FailedStops(gs, r, trace, step);
  }

  lemma FailedStops(gs: GateKeeper, r: Run, trace: seq<Record>, step: Step)
    requires trace != [] && Latest(trace).reach.Failed? && r.w.provider(Latest(trace).call).fault.Some?
    requires step == Classified(r.w.callDeadline(|trace|), r.w.callCanceled(|trace|),
               r.w.provider(Latest(trace).call).fault.value)
    ensures !step.Next?
    ensures step.Cut? ==> StoppedFor(step.outcome, r, trace)
    ensures step.Over? ==> IsOver(gs, r, trace, step.result)
  {
    hide ReproOf;
  }

  /** A call that completed is followed by a turn that was taken. */
  lemma {:induction false} TakenTurn(r: Run, trace: seq<Record>, t: Record, content: seq<Part>)
    requires Starts(r, trace, t) && r.w.provider(t.call).fault.None? && content == ContentAt(r.w, t) && !t.reach.Failed?
    requires if Acts(content, r.pol) then
               Decided(r.w, r.pol, |trace| + 1, content, Advanced(ReasoningOf(r, trace), content),
                       SeenOf(r, trace), t.reach)
             else t.reach.Whole?
    requires var seen := SeenNext(SeenOf(r, trace), r.w, r.pol, |trace| + 1, content, t.reach);
             && Wrote(r.w, r.pol, SceneOf(r, trace), content, t.reach, seen.observations,
                      Afterword(r.w, r.pol, |trace| + 1, content, ReasoningOf(r, trace), t.closed), BaseOf(r, trace, t),
                        t.after)
             && ClosesAt(r.gs, r.w, r.pol, |trace| + 1, content, Tracker.LastFailed(seen.history),
                         ReproNext(ReproOf(r, trace), r.gs.pol.reproFirst, r.w, r.pol, |trace| + 1, content, t.reach),
                         MemoryAfter(r, trace), t.closed, t.memory)
    ensures Follows(r, trace, t)
  {
    hide Starts, BaseOf, SeenOf, SeenNext, ReasoningOf, ContentAt, Acts, Decided, Wrote, Advanced, ClosesAt, Afterword,
      MemoryAfter, ReproOf, ReproNext;
  }

  lemma {:induction false} TakenStops(gs: GateKeeper, r: Run, trace: seq<Record>, step: Step, m: Memory,
          lastRunFailed: bool, repro: Repro.State)
    requires trace != [] && !Latest(trace).reach.Failed?
    requires var t, content := Latest(trace), ContentAt(r.w, Latest(trace));
             && ClosesAt(gs, r.w, r.pol, |trace|, content, lastRunFailed, repro, m, t.closed, t.memory)
             && (!Acts(content, r.pol) ==> t.reach.Whole?)
             && step == if Acts(content, r.pol) && KillOf(t.reach).Some? then Cut(KillOf(t.reach).value)
                else StepOf(t.closed)
    requires step.Over? && step.result.outcome.Answered? ==> gs.NotBlocked()
    ensures step.Next? ==> Uncut(trace)
    ensures step.Cut? ==> StoppedFor(step.outcome, r, trace)
    ensures step.Over? ==> IsOver(gs, r, trace, step.result)
  {
    hide ContentAt, Acts, gs.Decides, InputAt, Silent, gs.NotBlocked;
  }

  /** One turn, from the checks at its boundary to what it leaves. */
  method OneTurn(i: nat, s0: LoopState, pol: LoopPolicy, w: World, gs: GateKeeper, tr: Tracker.TurnTracker,
          sp: Spiral.SpiralState, ghost r: Run, ghost trace0: seq<Record>)
    returns (s: LoopState, step: Step, ghost trace: seq<Record>)
    requires r.w == w && r.pol == pol && Answers(w.provider) && |trace0| + 1 == i <= pol.maxIter
    requires IsTrace(r, trace0) && Uncut(trace0) && Fits(s0, r, trace0) && Guards(gs, r, trace0)
    requires Ready(gs) && Watching(pol, tr, sp) && Saw(SeenOf(r, trace0), s0, tr, sp)
    modifies gs, gs.review, gs.repro, gs.spend, tr, sp
    ensures gs.Valid() && RoundsBounded(gs) && (!step.Over? ==> Ready(gs))
    ensures IsTrace(r, trace) && Fits(s, r, trace) && Guards(gs, r, trace) && |trace| <= i
    ensures Watching(pol, tr, sp) && Saw(SeenOf(r, trace), s, tr, sp)
    ensures step.Next? ==> |trace| == i && Uncut(trace)
    ensures step.Cut? ==> StoppedFor(step.outcome, r, trace) && !step.outcome.Answered?
    ensures step.Over? ==> IsOver(gs, r, trace, step.result)
  {
    hide *;
    s, trace := s0, trace0;
    ReadyMeans(gs);
    GuardsMean(gs, r, trace0);
    FitsMeans(s0, r, trace0);
    step := CheckBudgets(i, s.usage, pol, w, gs.spend);
    if !step.Next? {
      NotStarted(gs, r, trace0, s0, step);
      StoppedIsNotAnswered(step, r, trace0);
      return;
    }
    s, step, trace := TurnInBudget(i, s0, pol, w, gs, tr, sp, r, trace0);
  }

  /** One turn that the budgets allow. */
  method TurnInBudget(i: nat, s0: LoopState, pol: LoopPolicy, w: World, gs: GateKeeper, tr: Tracker.TurnTracker,
          sp: Spiral.SpiralState, ghost r: Run, ghost trace0: seq<Record>)
    returns (s: LoopState, step: Step, ghost trace: seq<Record>)
    requires r.w == w && r.pol == pol && Answers(w.provider) && |trace0| + 1 == i <= pol.maxIter
    requires IsTrace(r, trace0) && Uncut(trace0) && Fits(s0, r, trace0) && Guards(gs, r, trace0)
    requires Ready(gs) && Watching(pol, tr, sp) && Saw(SeenOf(r, trace0), s0, tr, sp)
    requires !w.canceled(i) && !w.deadline(i)
    requires Affordable(pol, PriceOf(gs.spend), Start(s0.usage.total, ChargesOn(gs.spend)))
    modifies gs, gs.review, gs.repro, gs.spend, tr, sp
    ensures gs.Valid() && RoundsBounded(gs) && (!step.Over? ==> Ready(gs))
    ensures IsTrace(r, trace) && Fits(s, r, trace) && Guards(gs, r, trace) && |trace| <= i
    ensures Watching(pol, tr, sp) && Saw(SeenOf(r, trace), s, tr, sp)
    ensures step.Next? ==> |trace| == i && Uncut(trace)
    ensures step.Cut? ==> StoppedFor(step.outcome, r, trace) && !step.outcome.Answered?
    ensures step.Over? ==> IsOver(gs, r, trace, step.result)
  {
    hide *;
    trace := trace0;
    ReadyMeans(gs);
    GuardsMean(gs, r, trace0);
    FitsMeans(s0, r, trace0);
    s := ShowStanding(i, s0, w);
    TallyIs(s0);
    TallyIs(s);
    ghost var asked := s;
    TurnBounded(w.provider, asked.calls, asked.messages);
    ghost var call := asked.calls + RecoverTurn(w.provider, asked.calls, asked.messages).calls - 1;
    ghost var t := Record(Start(s0.usage.total, ChargesOn(gs.spend)), asked.messages, call, Failed, [], NotClosed,
                          gs.Remembered());
    HasStarted(gs, r, trace0, s0, t);
    WatchingMeans(pol, tr, sp, SeenOf(r, trace0), s0);
    var content;
    s, content, step := CallModel(i, s, pol, w, gs);
    ReadyMeans(gs);
    if !step.Next? {
      t := t.(after := s.messages);
      SameStart(r, trace0, t.(after := []), t);
      RecordFailed(gs, r, trace0, t, s0, s, step);
      trace := trace0 + [t];
      GuardsMean(gs, r, trace);
      WatchingMeans(pol, tr, sp, SeenOf(r, trace), s);
      StoppedIsNotAnswered(step, r, trace);
      return;
    }
    ContentIs(w, t, content);
    WatchingMeans(pol, tr, sp, SeenOf(r, trace0), s);
    s, step, trace := TakeCompleted(i, s, content, pol, w, gs, tr, sp, r, trace0, t, s0);
  }

  /** A turn whose model call completed, taken in and recorded. */
  method TakeCompleted(i: nat, called: LoopState, content: seq<Part>, pol: LoopPolicy, w: World, gs: GateKeeper,
          tr: Tracker.TurnTracker, sp: Spiral.SpiralState, ghost r: Run, ghost trace0: seq<Record>, ghost t0: Record,
          ghost s0: LoopState)
    returns (s: LoopState, step: Step, ghost trace: seq<Record>)
    requires r.w == w && r.pol == pol && |trace0| + 1 == i && IsTrace(r, trace0) && Fits(s0, r, trace0)
    requires Starts(r, trace0, t0) && w.provider(t0.call).fault.None? && content == ContentAt(w, t0)
    requires called.messages == BaseOf(r, trace0, t0) && called.calls == t0.call + 1
             && called.lastReasoning == s0.lastReasoning
    requires called.lastStanding == LastStanding(w, i) && called.Tally() == TallyNext(s0.Tally(), w, i, t0.call, false)
    requires r.gs == gs && r.price == PriceOf(gs.spend) && gs.Remembered() == MemoryAfter(r, trace0)
             && Repro.Core(gs.repro.state) == ReproOf(r, trace0)
    requires r.price.Some? ==> t0.start.charges + TurnCharge(w, pol.solver, t0.call, false) <= ChargesOn(gs.spend)
    requires Ready(gs) && Watching(pol, tr, sp) && Saw(SeenOf(r, trace0), called, tr, sp)
    modifies gs, gs.review, gs.repro, gs.spend, tr, sp
    ensures gs.Valid() && RoundsBounded(gs) && (!step.Over? ==> Ready(gs))
    ensures IsTrace(r, trace) && Fits(s, r, trace) && Guards(gs, r, trace) && |trace| == i
    ensures Watching(pol, tr, sp) && Saw(SeenOf(r, trace), s, tr, sp)
    ensures step.Next? ==> Uncut(trace)
    ensures step.Cut? ==> StoppedFor(step.outcome, r, trace) && !step.outcome.Answered?
    ensures step.Over? ==> IsOver(gs, r, trace, step.result)
  {
    hide *;
    ReadyMeans(gs);
    FitsMeans(s0, r, trace0);
    ghost var rounds := if gs.review == null then 0 else gs.review.rounds;
    ghost var account := ChargesOn(gs.spend);
    ghost var reach, closed;
    s, step, reach, closed := TakeTurn(i, called, content, pol, w, gs, tr, sp, SeenOf(r, trace0));
    RoundsAfter(gs, rounds);
    ghost var t := t0.(reach := reach, after := s.messages, closed := closed, memory := gs.Remembered());
    SameStart(r, trace0, t0, t);
    WatchingMeans(pol, tr, sp, SeenNext(SeenOf(r, trace0), w, pol, i, content, reach), s);
    TakenReach(w, pol, i, content, Advanced(called.lastReasoning, content), SeenOf(r, trace0), reach);
    SceneIs(r, trace0);
    TakenTurn(r, trace0, t, content);
    TallyIs(s);
    TallyIs(called);
    IsRecorded(r, trace0, t, s0, s);
    trace := trace0 + [t];
    TraceSnoc(r, trace0, t);
    OfSnoc(r, trace0, t);
    PrefixTrans(t.start.charges + TurnCharge(w, pol.solver, t.call, false), account, ChargesOn(gs.spend), r.price);
    GuardsMean(gs, r, trace);
    WatchingMeans(pol, tr, sp, SeenOf(r, trace), s);
    TakenStops(gs, r, trace, step, MemoryAfter(r, trace0), Tracker.LastFailed(tr.history), Repro.Core(gs.repro.state));
    StoppedIsNotAnswered(step, r, trace);
  }

  lemma {:induction false} SceneIs(r: Run, trace: seq<Record>)
    ensures SceneOf(r, trace) == Scene(|trace| + 1, r.w.tools, ReproOf(r, trace), r.gs.pol.reproFirst)
  {
  }

  lemma SameStart(r: Run, trace: seq<Record>, t: Record, t': Record)
    requires Starts(r, trace, t) && t'.start == t.start && t'.sent == t.sent && t'.call == t.call
    ensures Starts(r, trace, t') && BaseOf(r, trace, t') == BaseOf(r, trace, t)
              && ContentAt(r.w, t') == ContentAt(r.w, t)
  {
    hide Affordable, ChargesAfter, MessagesAfter, TallyOf, CallsAfter, RecoverTurn, Block, Uncut;
  }

  lemma ContentIs(w: World, t: Record, content: seq<Part>)
    requires w.provider(t.call).resp.Some? && content == w.provider(t.call).resp.value.content
    ensures ContentAt(w, t) == content
  {
  }

  lemma TakenReach(w: World, pol: LoopPolicy, i: nat, content: seq<Part>, advanced: bool, seen: Seen, reach: Reach)
    requires if Acts(content, pol) then Decided(w, pol, i, content, advanced, seen, reach) else reach.Whole?
    ensures !reach.Failed?
  {
    hide Acts, Reissued, Wandered, StagnatesAt, Echoes, SeenNext, ToolCalls;
  }

  lemma PrefixTrans(a: seq<Charge>, b: seq<Charge>, c: seq<Charge>, price: Option<Pricer>)
    requires (price.Some? ==> a <= b) && b <= c
    ensures (price.Some? ==> a <= c) && [] <= c
  {
  }

  lemma {:induction false} FitsMeans(s: LoopState, r: Run, trace: seq<Record>)
    ensures Fits(s, r, trace) <==>
            && s.messages == MessagesAfter(r, trace) && s.calls == CallsAfter(trace) && s.Tally() == TallyOf(r, trace)
            && s.lastReasoning == ReasoningOf(r, trace) && s.lastStanding == LastStanding(r.w, |trace|)
  {
  }

  lemma StoppedIsNotAnswered(step: Step, r: Run, trace: seq<Record>)
    requires step.Cut? ==> StoppedFor(step.outcome, r, trace)
    ensures step.Cut? ==> !step.outcome.Answered?
  {
    hide OverBudget, ChargesAfter, TallyOf;
  }

  /** A killed or capped run goes through the gates once more. */
  method Rescue(o: RunOutcome, w: World, gs: GateKeeper, ghost r: Run, ghost trace: seq<Record>) returns (v: Result)
    requires Ready(gs) && Guards(gs, r, trace) && r.w == w && StoppedFor(o, r, trace) && !o.Answered?
    modifies gs, gs.review, gs.repro, gs.spend
    ensures gs.Valid() && RoundsBounded(gs) && Repro.Core(gs.repro.state) == ReproOf(r, trace)
    ensures Upgraded(gs, r, trace, o, v) && Verdict(gs, r, trace, v)
  {
    hide *;
    ReadyMeans(gs);
    GuardsMean(gs, r, trace);
    ghost var rounds := if gs.review == null then 0 else gs.review.rounds;
    RemembersReview(gs);
    v := gs.UpgradeIfVerified(Result(o, "", None), w.upgrade);
    RoundsAfter(gs, rounds);
    Repro.CoreMeans(old(gs.repro.state), gs.repro.state, gs.pol.reproFirst, w.upgrade.repro);
    WasUpgraded(gs, r, trace, o, old(gs.repro.state), v);
  }

  lemma RemembersReview(gs: GateKeeper)
    ensures gs.Remembered().review == if gs.review == null then None else Some(gs.review.Remembered())
  {
  }

  lemma {:induction false} WasUpgraded(gs: GateKeeper, r: Run, trace: seq<Record>, o: RunOutcome, repro0: Repro.State,
          v: Result)
    requires StoppedFor(o, r, trace) && !o.Answered? && Repro.Core(repro0) == ReproOf(r, trace)
    requires v.outcome.Answered? <==> gs.Upgradable(r.w.upgrade, repro0) && gs.ReviewPassed()
    requires v.outcome.Answered? ==> v.rescuedFrom == Some(o) && gs.NotBlocked() && v.answer == gs.RescuedAnswer("")
    requires !v.outcome.Answered? ==>
               v == Result(o, "", None).(outcome := v.outcome) && v.outcome == gs.NotRescued(o, r.w.upgrade, repro0)
    requires gs.Upgradable(r.w.upgrade, repro0) && gs.review != null ==>
               && gs.ruling.Some? && MemoryAfter(r, trace).review.Some?
               && gs.review.Ruled(false, r.w.upgrade.review, MemoryAfter(r, trace).review.value, gs.ruling.value,
                                  gs.review.Remembered())
    ensures Upgraded(gs, r, trace, o, v) && Verdict(gs, r, trace, v)
  {
    hide StoppedFor, IsOver, ReproOf, Repro.Satisfied, Repro.Core, gs.ReviewPassed, gs.NotBlocked, LastGreen,
      gs.RescuedAnswer, Review.ReviewState.Ruled, Review.ReviewState.Remembered, MemoryAfter;
    Repro.CoreMeans(repro0, repro0, gs.pol.reproFirst, r.w.upgrade.repro);
  }

  /** The result the loop hands out. */
  function Conclude(s: LoopState, v: Result): RunResult {
    RunResult(v.outcome, if v.answer == "" && !v.outcome.Answered? then s.lastText else v.answer, v.rescuedFrom,
              s.iterations, s.messages, s.usage, s.lastUsage, s.calls)
  }

  lemma Concluded(s: LoopState, v: Result, r: Run, trace: seq<Record>)
    requires Fits(s, r, trace)
    ensures Conclude(s, v) == ResultOf(r, trace, v)
  {
    hide TallyOf, MessagesAfter, CallsAfter, ReasoningOf, LastStanding;
  }

  /** What a run starts from. */
  ghost function RunFrom(history: seq<Message>, task: Message, pol: LoopPolicy, w: World, gs: GateKeeper): Run
    reads gs, gs.review, gs.repro, gs.spend
  {
    Run(w, pol, gs, history + [task], Repro.Core(gs.repro.state), PriceOf(gs.spend), ChargesOn(gs.spend),
        gs.Remembered())
  }

  /**
   What is true of every run when it ends: its record is a trace, its result is what the record and
   the verdict say, and so is the repro state; the transcript is one a provider accepts, unless a
   finish call shared its id; turns, calls, tokens and rounds are bounded.
  */
  ghost predicate Ended(gs: GateKeeper, r: Run, trace: seq<Record>, v: Result, res: RunResult)
    reads gs, gs.review, gs.repro, gs.spend
  {
    && r.gs == gs && IsTrace(r, trace) && Verdict(gs, r, trace, v) && res == ResultOf(r, trace, v)
    && Repro.Core(gs.repro.state) == ReproOf(r, trace) && Repro.StaysLocked(r.repro, ReproOf(r, trace))
    && (WellFormed(r.seed) && OwnIds(r, trace) ==> WellFormed(res.messages))
    && |trace| <= r.pol.maxIter && Bounded(r, trace) && RoundsBounded(gs) && gs.Valid()
  }

  lemma {:induction false} HasEnded(gs: GateKeeper, r: Run, trace: seq<Record>, v: Result, res: RunResult)
    requires r.gs == gs && IsTrace(r, trace) && Verdict(gs, r, trace, v) && res == ResultOf(r, trace, v)
             && Answers(r.w.provider)
    requires Repro.Core(gs.repro.state) == ReproOf(r, trace) && |trace| <= r.pol.maxIter && RoundsBounded(gs)
             && gs.Valid()
    ensures Ended(gs, r, trace, v, res)
  {
    hide *;
    ResultMessages(r, trace, v);
    WithinBounds(r, trace);
    LockKept(r, trace);
    if WellFormed(r.seed) && OwnIds(r, trace) {
      TranscriptAccepted(r, trace);
    }
    IsEnded(gs, r, trace, v, res);
  }

  lemma {:induction false} IsEnded(gs: GateKeeper, r: Run, trace: seq<Record>, v: Result, res: RunResult)
    requires r.gs == gs && IsTrace(r, trace) && Verdict(gs, r, trace, v) && res == ResultOf(r, trace, v)
    requires Repro.Core(gs.repro.state) == ReproOf(r, trace) && Repro.StaysLocked(r.repro, ReproOf(r, trace))
    requires WellFormed(r.seed) && OwnIds(r, trace) ==> WellFormed(res.messages)
    requires |trace| <= r.pol.maxIter && Bounded(r, trace) && RoundsBounded(gs) && gs.Valid()
    ensures Ended(gs, r, trace, v, res)
  {
    hide IsTrace, Verdict, ResultOf, WellFormed, OwnIds, Bounded, RoundsBounded, gs.Valid, ReproOf;
  }

  lemma ResultMessages(r: Run, trace: seq<Record>, v: Result)
    ensures ResultOf(r, trace, v).messages == MessagesAfter(r, trace)
  {
  }

  lemma {:induction false} NothingYet(s: LoopState, r: Run)
    requires s == LoopState(r.seed, ZERO_USAGE, ZERO_USAGE, 0, 0, 0, "", "", "", "")
    ensures IsTrace(r, []) && Uncut([]) && Fits(s, r, [])
    ensures SeenOf(r, []) == Seen([], [], [], []) && CountsRepeats([], 0, "")
    ensures ReproOf(r, []) == r.repro && MemoryAfter(r, []) == r.memory
    ensures ChargesAfter(r, []) == if r.price.None? then [] else r.charges
  {
  }

  lemma NothingCharged(gs: GateKeeper, r: Run)
    requires r.price == PriceOf(gs.spend) && r.charges == ChargesOn(gs.spend)
    ensures (if r.price.None? then [] else r.charges) <= ChargesOn(gs.spend)
  {
  }

  lemma SameLimits(sp: Spiral.SpiralState, pol: LoopPolicy)
    requires sp.window == pol.window && sp.wanderMultiple == pol.wanderMultiple && sp.frontierCap == pol.frontierCap
    ensures Explores(sp, pol)
  {
  }

  lemma Capped(r: Run, trace: seq<Record>)
    requires Uncut(trace) && |trace| == r.pol.maxIter
    ensures StoppedFor(HitCap, r, trace)
  {
    hide ChargesAfter, OverBudget;
  }

  lemma OverMeans(gs: GateKeeper, r: Run, trace: seq<Record>, v: Result)
    requires IsOver(gs, r, trace, v)
    ensures Verdict(gs, r, trace, v)
  {
    hide IsOver;
  }

  /**
   A run, from the history a session carries to its result.  The turns it took are its trace; how far
   each got, what it wrote and why the run ended are decided by the trace, the world and the gates.
  */
  method RunNative(history: seq<Message>, task: Message, pol: LoopPolicy, w: World, gs: GateKeeper)
    returns (res: RunResult, ghost trace: seq<Record>, ghost v: Result)
    requires Ready(gs) && Answers(w.provider) && pol.frontierCap >= 1
    modifies gs, gs.review, gs.repro, gs.spend
    ensures Ended(gs, old(RunFrom(history, task, pol, w, gs)), trace, v, res)
  {
    hide *;
    ghost var r := Run(w, pol, gs, history + [task], Repro.Core(gs.repro.state), PriceOf(gs.spend), ChargesOn(gs.spend),
                       gs.Remembered());
    RunIs(history, task, pol, w, gs);
    var tr := new Tracker.TurnTracker(pol.maxStagnant, pol.maxReasoningRepeats, pol.greenRepeats);
    var sp := new Spiral.SpiralState(pol.window, pol.wanderMultiple, pol.frontierCap);
    var zero := Usage(0, 0, 0, 0, 0, 0.0);
    ZeroIs();
    var s := LoopState(history + [task], zero, zero, 0, 0, 0, "", "", "", "");
    trace := [];
    NothingYet(s, r);
    NothingCharged(gs, r);
    GuardsMean(gs, r, []);
    SameLimits(sp, pol);
    WatchingMeans(pol, tr, sp, SeenOf(r, []), s);
    var i: nat := 1;
    while i <= pol.maxIter
      invariant 1 <= i <= pol.maxIter + 1 && |trace| == i - 1
      invariant IsTrace(r, trace) && Uncut(trace) && Fits(s, r, trace) && Guards(gs, r, trace)
      invariant Ready(gs) && Watching(pol, tr, sp) && Saw(SeenOf(r, trace), s, tr, sp) && fresh(tr) && fresh(sp)
    {
      var step;
      ghost var next;
      s, step, next := OneTurn(i, s, pol, w, gs, tr, sp, r, trace);
      trace := next;
      GuardsMean(gs, r, trace);
      match step {
        case Next =>
        case Cut(o) =>
          var cut := Rescue(o, w, gs, r, trace);
          Concluded(s, cut, r, trace);
          HasEnded(gs, r, trace, cut, Conclude(s, cut));
          return Conclude(s, cut), trace, cut;
        case Over(over) =>
          OverMeans(gs, r, trace, over);
          Concluded(s, over, r, trace);
          HasEnded(gs, r, trace, over, Conclude(s, over));
          return Conclude(s, over), trace, over;
      }
      i := i + 1;
    }
    Capped(r, trace);
    var capped := Rescue(HitCap, w, gs, r, trace);
    Concluded(s, capped, r, trace);
    HasEnded(gs, r, trace, capped, Conclude(s, capped));
    return Conclude(s, capped), trace, capped;
  }

  lemma ZeroIs()
    ensures ZERO_USAGE == Usage(0, 0, 0, 0, 0, 0.0)
  {
  }

  lemma RunIs(history: seq<Message>, task: Message, pol: LoopPolicy, w: World, gs: GateKeeper)
    ensures RunFrom(history, task, pol, w, gs) ==
            Run(w, pol, gs, history + [task], Repro.Core(gs.repro.state), PriceOf(gs.spend), ChargesOn(gs.spend),
                gs.Remembered())
  {
  }

  // ---- what the end of a run means -----------------------------------------------------------------------

  function CutBy(res: RunResult): RunOutcome {
    if res.rescuedFrom.Some? then res.rescuedFrom.value else res.outcome
  }

  predicate Killed(o: RunOutcome) {
    o.KilledRepeat? || o.KilledSpiral? || o.KilledStagnant?
  }

  /**
   A killed run, rescued or not, was killed for what its own turns show: the same calls made, or the same
   shown, too often in a row; nothing but looking around for too long; or a command that kept failing.
  */
  lemma {:induction false} KilledMeans(gs: GateKeeper, r: Run, trace: seq<Record>, v: Result, res: RunResult)
    requires Ended(gs, r, trace, v, res) && Killed(CutBy(res))
    ensures trace != [] && ActedIn(r, Latest(trace))
    ensures var seen, content := SeenOf(r, trace), ContentAt(r.w, Latest(trace));
            var advanced := Advanced(ReasoningOf(r, Prior(trace)), content);
            match CutBy(res)
            case KilledRepeat =>
              && (Reissued(r.pol, advanced, seen.sigs) || Echoes(r.pol, seen.observations))
              && (Legible(ActedCalls(r, trace), r.w.argOf) && LegibleShown(ObservedCalls(r, trace), r.w) ==>
                   || AlikeCalls(ActedCalls(r, trace), r.w.argOf, LeastRepeats(r.pol, advanced))
                   || AlikeShown(ObservedCalls(r, trace), r.w, LeastEchoes(r.pol)))
            case KilledSpiral =>
              && OnlyLooks(ToolCalls(content)) && BurstOf(seen.burst, ActedCalls(r, trace), r.w.targetOf)
              && Spiral.Spent(seen.burst, r.pol.frontierCap, r.pol.window, r.pol.wanderMultiple)
            case _ =>
              && Latest(trace).reach.Halted? && Latest(trace).reach.last < |ToolCalls(content)|
              && ToolCalls(content)[Latest(trace).reach.last].name == "run"
              && Tracker.Stagnated(seen.history, r.pol.maxStagnant)
  {
    hide *;
    KilledAt(gs, r, trace, v, res);
    TraceMeans(r, trace);
    CutActs(r, Prior(trace), Latest(trace), CutBy(res));
    KilledForCause(r, trace);
    ActedMeans(r, Latest(trace));
    if CutBy(res).KilledSpiral? {
      SpiralledIff(r, trace);
    } else if CutBy(res).KilledStagnant? {
      HaltedMeans(r, trace);
    } else if Legible(ActedCalls(r, trace), r.w.argOf) && LegibleShown(ObservedCalls(r, trace), r.w) {
      RepeatedIff(r, trace);
      if Latest(trace).reach.Stalled? {
        StalledIff(r, trace);
      }
    }
    KilledCases(CutBy(res));
  }

  lemma KilledCases(o: RunOutcome)
    ensures Killed(o) <==> o.KilledRepeat? || o.KilledSpiral? || o.KilledStagnant?
  {
  }

  lemma {:induction false} KilledAt(gs: GateKeeper, r: Run, trace: seq<Record>, v: Result, res: RunResult)
    requires Ended(gs, r, trace, v, res) && Killed(CutBy(res))
    ensures IsTrace(r, trace) && trace != [] && KillOf(Latest(trace).reach) == Some(CutBy(res))
  {
    hide IsTrace, StoppedFor, Bounded, WellFormed, OwnIds, gs.Upgradable, gs.ReviewPassed, ReproOf, TallyOf, ContentAt,
      Acts, InputOf;
    EndedTrace(gs, r, trace, v, res);
    if IsOver(gs, r, trace, v) {
      OverNotKilled(gs, r, trace, v);
    } else {
      var o :| StoppedFor(o, r, trace) && Upgraded(gs, r, trace, o, v);
      StoppedMeans(o, r, trace);
    }
  }

  lemma {:induction false} EndedTrace(gs: GateKeeper, r: Run, trace: seq<Record>, v: Result, res: RunResult)
    requires Ended(gs, r, trace, v, res)
    ensures r.gs == gs && IsTrace(r, trace) && Verdict(gs, r, trace, v) && res == ResultOf(r, trace, v)
  {
    hide IsTrace, Verdict, ResultOf, Bounded, WellFormed, OwnIds, ReproOf;
  }

  lemma {:induction false} OverNotKilled(gs: GateKeeper, r: Run, trace: seq<Record>, v: Result)
    requires IsOver(gs, r, trace, v) && IsTrace(r, trace)
    ensures v.rescuedFrom.None? && !Killed(v.outcome)
  {
    hide StoppedFor, IsTrace, Follows, gs.NotBlocked;
    if trace != [] && StepOf(Latest(trace).closed) == Over(v) {
      TraceMeans(r, trace);
      ClosedOutcome(r, Prior(trace), Latest(trace), v);
    }
  }

  /** A run that a finish ends is Answered, or ends for one of three reasons. */
  lemma ClosedOutcome(r: Run, before: seq<Record>, t: Record, v: Result)
    requires Follows(r, before, t) && StepOf(t.closed) == Over(v)
    ensures v.rescuedFrom.None?
    ensures v.outcome.Answered? || v.outcome.ScopeViolation? || v.outcome.Canceled? || v.outcome.Unverified?
    ensures !Acts(ContentAt(r.w, t), r.pol) && !t.reach.Failed?
  {
    hide Wrote, Decided, SeenNext, Starts, Acts, ContentAt, Advanced, SeenOf, ReasoningOf, BaseOf, Afterword, ReproOf,
      ReproNext, InputAt, Silent, MemoryAfter;
    var gs := r.gs;
    hide gs.VerifySendsBack, gs.ReproSendsBack, gs.MeetsRepro, gs.MeetsReview, gs.CountsSoft, gs.OldFailure,
      gs.StageReason, Review.ReviewState.Ruled, Repro.Satisfied;
  }

  lemma StoppedMeans(o: RunOutcome, r: Run, trace: seq<Record>)
    requires StoppedFor(o, r, trace)
    ensures Killed(o) ==> trace != [] && KillOf(Latest(trace).reach) == Some(o)
    ensures !o.Answered?
  {
    hide OverBudget, ChargesAfter, TallyOf;
  }

  lemma CutActs(r: Run, before: seq<Record>, t: Record, o: RunOutcome)
    requires Follows(r, before, t) && KillOf(t.reach) == Some(o)
    ensures Acts(ContentAt(r.w, t), r.pol) && !t.reach.Failed?
    ensures match o
            case KilledRepeat => t.reach.Repeated? || t.reach.Stalled?
            case KilledSpiral => t.reach.Spiralled?
            case _ => t.reach.Halted?
  {
    hide Wrote, Decided, SeenNext, Starts, Acts, ContentAt, Advanced, SeenOf, ReasoningOf, BaseOf, Closes;
  }

  /**
   An Answered run, whichever way it got there, left fence and scope clean and met the repro gate with
   the state its own calls had brought it to; it either cleared the verify stage in that same finish,
   or was cut for a reason on record and then verified green.
  */
  lemma {:induction false} AnsweredMeans(gs: GateKeeper, r: Run, trace: seq<Record>, v: Result, res: RunResult)
    requires Ended(gs, r, trace, v, res) && res.outcome.Answered?
    ensures gs.NotBlocked()
    ensures match res.rescuedFrom
            case None =>
              var w := r.w.finish(|trace|);
              && trace != [] && !Acts(ContentAt(r.w, Latest(trace)), r.pol)
              && w.fence.Clean? && w.scope.Clean? && !w.canceled
              && res.answer == InputOf(r, trace).answer && TrimSpace(res.answer) != ""
              && Repro.Satisfied(gs.pol.reproFirst, ReproOf(r, trace), w.repro)
              && (InputOf(r, trace).trusted ==> r.pol.finishTrusts)
              && (!InputOf(r, trace).trusted && gs.review != null ==>
                   Latest(trace).closed == Closed(Accept(res.answer), Some(Review.Pass)))
              && (!InputOf(r, trace).trusted && !gs.pol.soft ==>
                   gs.VerifyClears(w, Tracker.LastFailed(SeenOf(r, trace).history)))
            case Some(o) =>
              var w := r.w.upgrade;
              && StoppedFor(o, r, trace) && w.fence.Clean? && w.scope.Clean? && LastGreen(w.verify, true)
                 && gs.ReviewPassed()
              && Repro.Satisfied(gs.pol.reproFirst, ReproOf(r, trace), w.repro)
  {
    hide *;
    EndedTrace(gs, r, trace, v, res);
    ResultIs(r, trace, v);
    if IsOver(gs, r, trace, v) {
      OverAnswered(gs, r, trace, v);
      InputMeans(r, trace);
      AcceptMeans(r, trace, v);
    } else {
      RescuedMeans(gs, r, trace, v);
    }
  }

  lemma ResultIs(r: Run, trace: seq<Record>, v: Result)
    ensures var res := ResultOf(r, trace, v);
            && res.outcome == v.outcome && res.rescuedFrom == v.rescuedFrom
            && (v.outcome.Answered? ==> res.answer == v.answer)
  {
    hide TallyOf;
  }

  lemma OverAnswered(gs: GateKeeper, r: Run, trace: seq<Record>, v: Result)
    requires IsOver(gs, r, trace, v) && v.outcome.Answered?
    ensures trace != [] && StepOf(Latest(trace).closed) == Over(v) && gs.NotBlocked()
  {
    hide StoppedFor, StepOf, gs.NotBlocked;
  }

  /** What stood behind a rescue. */
  lemma {:induction false} RescuedMeans(gs: GateKeeper, r: Run, trace: seq<Record>, v: Result)
    requires Verdict(gs, r, trace, v) && !IsOver(gs, r, trace, v) && v.outcome.Answered?
    ensures gs.NotBlocked() && v.rescuedFrom.Some? && StoppedFor(v.rescuedFrom.value, r, trace)
    ensures var w := r.w.upgrade;
            && w.fence.Clean? && w.scope.Clean? && LastGreen(w.verify, true) && gs.ReviewPassed()
            && Repro.Satisfied(gs.pol.reproFirst, ReproOf(r, trace), w.repro)
  {
    hide StoppedFor, IsOver, gs.ReviewPassed, ReproOf, Repro.Satisfied, LastGreen, gs.NotBlocked, MemoryAfter,
      Review.ReviewState.Ruled;
    var o :| StoppedFor(o, r, trace) && Upgraded(gs, r, trace, o, v);
    StoppedNotAnswered(o, r, trace);
  }

  lemma StoppedNotAnswered(o: RunOutcome, r: Run, trace: seq<Record>)
    requires StoppedFor(o, r, trace)
    ensures !o.Answered?
  {
    StoppedMeans(o, r, trace);
  }

  /** What stood behind an accepted finish. */
  lemma {:induction false} AcceptMeans(r: Run, trace: seq<Record>, v: Result)
    requires IsTrace(r, trace) && trace != [] && StepOf(Latest(trace).closed) == Over(v) && v.outcome.Answered?
    ensures var w, input, t := r.w.finish(|trace|), InputOf(r, trace), Latest(trace);
            && !Acts(ContentAt(r.w, t), r.pol) && t.closed.Closed? && t.closed.decision == Accept(v.answer)
            && v.answer == input.answer && v.rescuedFrom.None? && !input.blank
            && w.fence.Clean? && w.scope.Clean? && !w.canceled
            && Repro.Satisfied(r.gs.pol.reproFirst, ReproOf(r, trace), w.repro)
            && (!input.trusted && r.gs.review != null ==> t.closed.ruling == Some(Review.Pass))
            && (!input.trusted && !r.gs.pol.soft ==> r.gs.VerifyClears(w, input.lastRunFailed))
  {
    hide *;
    var before, t := Prior(trace), Latest(trace);
    TraceMeans(r, trace);
    TraceRepro(r, trace);
    ClosesMeans(r, before, t, v);
    InputIs(r, trace);
    AcceptedBecause(r.gs, InputOf(r, trace), r.w.finish(|trace|), ReproOf(r, trace), MemoryAfter(r, before), t.closed,
        t.memory, v);
  }

  lemma {:induction false} TraceRepro(r: Run, trace: seq<Record>)
    requires trace != []
    ensures ReproOf(r, trace) == ReproNext(ReproOf(r, Prior(trace)), r.gs.pol.reproFirst, r.w, r.pol, |trace|,
                                           ContentAt(r.w, Latest(trace)), Latest(trace).reach)
  {
  }

  lemma {:induction false} InputIs(r: Run, trace: seq<Record>)
    requires trace != []
    ensures InputOf(r, trace) ==
            InputAt(r.w, r.pol, |trace|, ContentAt(r.w, Latest(trace)), Tracker.LastFailed(SeenOf(r, trace).history))
    ensures InputOf(r, trace).lastRunFailed == Tracker.LastFailed(SeenOf(r, trace).history)
  {
    hide ContentAt, SeenOf, ToolCalls, TextOf;
  }

  /** A turn that ends the run put its finish to the gates. */
  lemma {:induction false} ClosesMeans(r: Run, before: seq<Record>, t: Record, v: Result)
    requires Follows(r, before, t) && StepOf(t.closed).Over?
    ensures var i, content := |before| + 1, ContentAt(r.w, t);
            && !Acts(content, r.pol) && t.closed.Closed?
            && r.gs.Decides(InputAt(r.w, r.pol, i, content,
                              Tracker.LastFailed(SeenNext(SeenOf(r, before), r.w, r.pol, i, content, t.reach).history)),
                            r.w.finish(i),
                            ReproNext(ReproOf(r, before), r.gs.pol.reproFirst, r.w, r.pol, i, content, t.reach),
                            MemoryAfter(r, before), t.closed.ruling, t.closed.decision, t.memory)
  {
    hide Wrote, Decided, SeenNext, Starts, Acts, ContentAt, Advanced, SeenOf, ReasoningOf, BaseOf, Afterword, ReproOf,
      ReproNext, InputAt, Silent, MemoryAfter, Tracker.LastFailed;
    var gs := r.gs;
    hide gs.Decides;
  }

  lemma AcceptedBecause(gs: GateKeeper, input: FinishInput, w: FinishWorld, repro: Repro.State, m: Memory,
          closed: Closed, m': Memory, v: Result)
    requires closed.Closed? && gs.Decides(input, w, repro, m, closed.ruling, closed.decision, m')
    requires StepOf(closed) == Over(v) && v.outcome.Answered?
    ensures closed.decision == Accept(v.answer) && v.answer == input.answer && v.rescuedFrom.None? && !input.blank
    ensures w.fence.Clean? && w.scope.Clean? && !w.canceled && Repro.Satisfied(gs.pol.reproFirst, repro, w.repro)
    ensures !input.trusted && gs.review != null ==> closed.ruling == Some(Review.Pass)
    ensures !input.trusted && !gs.pol.soft ==> gs.VerifyClears(w, input.lastRunFailed)
  {
    hide Repro.Satisfied, Review.ReviewState.Ruled, gs.VerifyClears, gs.HeldUp, gs.StageReason, gs.Rejects,
      gs.CountsSoft, gs.OldFailure;
    if !gs.pol.soft {
      gs.HeldUpIff(input, w, m.softFeedback);
    }
  }

  /**
   A finish that the gates send back ends no run: another turn follows, unless the caller cancels or a
   budget is spent before it.
  */
  lemma {:induction false} SentBackGoesOn(gs: GateKeeper, r: Run, trace: seq<Record>, v: Result, res: RunResult)
    requires Ended(gs, r, trace, v, res) && trace != [] && Latest(trace).closed.Closed?
    requires Latest(trace).closed.decision.Continue?
    ensures |trace| < r.pol.maxIter
    ensures exists o :: StoppedFor(o, r, trace) && (o.Canceled? || o.HitDeadline? || o.HitBudget?)
  {
    hide IsTrace, Bounded, WellFormed, OwnIds, ReproOf, TallyOf, OverBudget, ChargesAfter, Upgraded;
    EndedTrace(gs, r, trace, v, res);
    TraceMeans(r, trace);
    ContinuesMeans(r, Prior(trace), Latest(trace));
    if IsOver(gs, r, trace, v) {
      assert StoppedFor(v.outcome, r, trace);
    } else {
      var o :| StoppedFor(o, r, trace) && Upgraded(gs, r, trace, o, v);
    }
  }

  lemma ContinuesMeans(r: Run, before: seq<Record>, t: Record)
    requires Follows(r, before, t) && t.closed.Closed? && t.closed.decision.Continue?
    ensures |before| + 1 < r.pol.maxIter && t.reach.Whole?
  {
    hide Wrote, Decided, SeenNext, Starts, Acts, ContentAt, Advanced, SeenOf, ReasoningOf, BaseOf, Afterword, ReproOf,
      ReproNext, Silent, MemoryAfter, Tracker.LastFailed, TextOf;
    var gs := r.gs;
    hide gs.MeetsRepro, gs.MeetsReview, gs.CountsSoft, gs.OldFailure, gs.StageReason, Repro.Satisfied, gs.Rejects,
      gs.Barred, Review.StatusAfter, Review.RoundDone, Review.Stands, Review.Repeats, Review.FreshNews;
  }

  lemma {:induction false} InputMeans(r: Run, trace: seq<Record>)
    ensures trace != [] ==>
              var input := InputOf(r, trace);
              && (input.blank <==> TrimSpace(input.answer) == "") && (input.trusted ==> r.pol.finishTrusts)
              && input.lastRunFailed == Tracker.LastFailed(SeenOf(r, trace).history)
  {
    hide ContentAt, SeenOf, ToolCalls, TextOf;
  }
}
