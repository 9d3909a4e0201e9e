/**
 The tool calls of one turn: dispatched in order, one result for each, whatever happens in between.
*/
module NativeDispatch {
  import opened Transcript
  import opened Generate
  import opened Gates
  import opened Texts
  import Runs
  import Repro
  import Tracker

  /** What a repro tool call asks for; other tools leave the repro gate alone. */
  datatype ReproCall =
    | NoReproCall
    | Declare(cmd: string, tree: Repro.Tree, w: Repro.DeclareWorld)
    | Skip(reason: string)

  /** The answer of a tool: what it printed, and what the model is shown of it. */
  datatype ToolAnswer = ToolAnswer(raw: string, shown: string, isErr: bool, repro: ReproCall)

  /** What the model is told of a call. */
  datatype Reply = Reply(text: string, isErr: bool)

  /** The tools, by turn and position of the call in it, and which output lines are assertions. */
  datatype Tools = Tools(answer: (nat, nat) -> ToolAnswer, isAssertion: string -> bool)

  /** The position of the first call of the named tool, or the number of calls. */
  function FindCall(calls: seq<Call>, name: string): (n: nat)
    ensures n <= |calls|
    ensures n < |calls| ==> calls[n].name == name
    ensures forall k :: 0 <= k < n ==> calls[k].name != name
  {
    if calls == [] || calls[0].name == name then 0 else 1 + FindCall(calls[1..], name)
  }

  // ---- pairing -----------------------------------------------------------------------------------------

  /** rs settles the calls of the assistant message, no more and no less. */
  lemma {:induction false} TurnPaired(msgs: seq<Message>, content: seq<Part>, rs: seq<Message>)
    requires WellFormed(msgs) && AllResults(rs)
    ensures WellFormed(msgs + [Message(Assistant, content)] + rs) <==> ResultBag(rs) == IdBag(ToolCalls(content))
  {
    hide ToolCalls, IdBag, ResultBag, IsResult;
    var m := Message(Assistant, content);
    OwedSnoc(CLEAR, msgs, m);
    OwedConcat(CLEAR, msgs + [m], rs);
    SettlesIff(Asked(m), rs);
  }

  lemma UserKeeps(msgs: seq<Message>, s: string)
    requires WellFormed(msgs)
    ensures WellFormed(msgs + [UserMsg(s)])
  {
    OwedSnoc(CLEAR, msgs, UserMsg(s));
  }

  lemma {:induction false} BagSnoc(rs: seq<Message>, m: Message)
    ensures ResultBag(rs + [m]) == ResultBag(rs) + multiset{ResultId(m)}
  {
    if rs == [] {
      assert [] + [m] == [m] && [m][1..] == [];
    } else {
      assert (rs + [m])[1..] == rs[1..] + [m];
      BagSnoc(rs[1..], m);
    }
  }

  lemma {:induction false} IdBagSnoc(calls: seq<Call>, n: nat)
    requires n < |calls|
    ensures IdBag(calls[..n + 1]) == IdBag(calls[..n]) + multiset{calls[n].id}
  {
    if n == 0 {
      assert calls[..1] == [calls[0]] && calls[..1][1..] == [];
    } else {
      assert calls[..n + 1][1..] == calls[1..][..n] && calls[..n][1..] == calls[1..][..n - 1];
      IdBagSnoc(calls[1..], n - 1);
    }
  }

  /** In every response, the call that finishes the turn has an id of its own. */
  predicate FinishIdUnique(finishTool: string, calls: seq<Call>) {
    var f := FindCall(calls, finishTool);
    f < |calls| ==> IdBag(calls)[calls[f].id] == 1
  }

  /** A provider that reports no error gives a response. */
  ghost predicate Answers(provider: Provider) {
    forall n: nat :: provider(n).fault.None? ==> provider(n).resp.Some?
  }

  // ---- what calls do to the gates and the detectors -----------------------------------------------------

  predicate IsRun(name: string) {
    name == "run"
  }

  const NOT_EXECUTED := "not executed: run stopped by the no-progress detector"

  /** What a run looked like. */
  function RunOf(a: ToolAnswer, isAssertion: string -> bool): Runs.RunOutput {
    Runs.Observe(a.raw, isAssertion)
  }

  /** The events that the tracker is shown of a call. */
  function EventsOfRun(c: Call, a: ToolAnswer, isAssertion: string -> bool): seq<Tracker.Event> {
    if IsRun(c.name) then [Tracker.Ran(RunOf(a, isAssertion))] else []
  }

  function EventsOfCall(c: Call, a: ToolAnswer, isAssertion: string -> bool): seq<Tracker.Event> {
    EventsOfRun(c, a, isAssertion) + if Tracker.MutatesFile(c.name) then [Tracker.Mutated] else []
  }

  /** The events of the first n calls of an acting turn. */
  function ActEvents(i: nat, calls: seq<Call>, n: nat, tools: Tools): seq<Tracker.Event>
    requires n <= |calls|
  {
    if n == 0 then []
    else ActEvents(i, calls, n - 1, tools) + EventsOfCall(calls[n - 1], tools.answer(i, n - 1), tools.isAssertion)
  }

  /** The events of the first n calls of a finishing turn; mutations are not counted there. */
  function FinishEvents(i: nat, calls: seq<Call>, n: nat, fin: string, tools: Tools): seq<Tracker.Event>
    requires n <= |calls|
  {
    if n == 0 then []
    else
      FinishEvents(i, calls, n - 1, fin, tools) +
      if calls[n - 1].id == fin then [] else EventsOfRun(calls[n - 1], tools.answer(i, n - 1), tools.isAssertion)
  }

  /** What a call makes of the repro state. */
  function ReproStep(s: Repro.State, r: ReproCall, reproFirst: bool): Repro.State {
    if !reproFirst then s
    else match r
      case NoReproCall => s
      case Declare(cmd, tree, w) =>
        if !Repro.Locks(s, cmd, tree, w) then s
        else Repro.Locked(w.safePath.value, cmd, tree[w.safePath.value], None, false)
      case Skip(reason) => if !AllSpaces(reason) && !s.Locked? then Repro.Skipped(TrimSpace(reason)) else s
  }

  /** The call fails: a repro call if the gate refuses it. */
  predicate Fails(s: Repro.State, a: ToolAnswer, reproFirst: bool) {
    if !reproFirst then a.isErr
    else match a.repro
      case NoReproCall => a.isErr
      case Declare(cmd, tree, w) => !Repro.Locks(s, cmd, tree, w)
      case Skip(reason) => AllSpaces(reason) || s.Locked?
  }

  /** What the first n calls of an acting turn make of it, and those of a finishing turn. */
  function ReproActs(s: Repro.State, reproFirst: bool, i: nat, calls: seq<Call>, n: nat, tools: Tools): Repro.State
    requires n <= |calls|
  {
    if n == 0 then s
    else ReproStep(ReproActs(s, reproFirst, i, calls, n - 1, tools), tools.answer(i, n - 1).repro, reproFirst)
  }

  function ReproOthers(s: Repro.State, reproFirst: bool, i: nat, calls: seq<Call>, n: nat, fin: string,
          tools: Tools): Repro.State
    requires n <= |calls|
  {
    if n == 0 then s
    else
      var t := ReproOthers(s, reproFirst, i, calls, n - 1, fin, tools);
      if calls[n - 1].id == fin then t else ReproStep(t, tools.answer(i, n - 1).repro, reproFirst)
  }

  /** The record of how the locked test did makes no difference to a call, and no call unlocks it. */
  lemma {:induction false} ActsCore(s: Repro.State, reproFirst: bool, i: nat, calls: seq<Call>, n: nat, tools: Tools)
    requires n <= |calls|
    ensures Repro.Core(ReproActs(s, reproFirst, i, calls, n, tools)) ==
            ReproActs(Repro.Core(s), reproFirst, i, calls, n, tools)
    ensures Repro.StaysLocked(s, ReproActs(s, reproFirst, i, calls, n, tools))
  {
    if n > 0 {
      ActsCore(s, reproFirst, i, calls, n - 1, tools);
      StepCore(ReproActs(s, reproFirst, i, calls, n - 1, tools), tools.answer(i, n - 1).repro, reproFirst);
      hide ReproStep;
    }
  }

  lemma {:induction false} OthersCore(s: Repro.State, reproFirst: bool, i: nat, calls: seq<Call>, n: nat, fin: string,
          tools: Tools)
    requires n <= |calls|
    ensures Repro.Core(ReproOthers(s, reproFirst, i, calls, n, fin, tools)) ==
            ReproOthers(Repro.Core(s), reproFirst, i, calls, n, fin, tools)
    ensures Repro.StaysLocked(s, ReproOthers(s, reproFirst, i, calls, n, fin, tools))
  {
    if n > 0 {
      OthersCore(s, reproFirst, i, calls, n - 1, fin, tools);
      StepCore(ReproOthers(s, reproFirst, i, calls, n - 1, fin, tools), tools.answer(i, n - 1).repro, reproFirst);
      hide ReproStep;
    }
  }

  lemma StepCore(s: Repro.State, r: ReproCall, reproFirst: bool)
    ensures Repro.Core(ReproStep(s, r, reproFirst)) == ReproStep(Repro.Core(s), r, reproFirst)
    ensures Repro.StaysLocked(s, ReproStep(s, r, reproFirst))
  {
  }

  lemma FailsCore(s: Repro.State, a: ToolAnswer, reproFirst: bool)
    ensures Fails(Repro.Core(s), a, reproFirst) <==> Fails(s, a, reproFirst)
  {
  }

  /** The call is a run that counts, and with it the failures at the end of the history reach the limit. */
  ghost predicate Stagnates(h: seq<Tracker.Event>, c: Call, a: ToolAnswer, isAssertion: string -> bool, limit: int) {
    IsRun(c.name) && !Tracker.IsNoise(RunOf(a, isAssertion))
      && Tracker.Stagnated(h + EventsOfRun(c, a, isAssertion), limit)
  }

  /** The n-th call of an acting turn does so, when h is the history before the turn. */
  ghost predicate StagnatesAt(limit: int, h: seq<Tracker.Event>, i: nat, calls: seq<Call>, n: nat, tools: Tools)
    requires n < |calls|
  {
    Stagnates(h + ActEvents(i, calls, n, tools), calls[n], tools.answer(i, n), tools.isAssertion, limit)
  }

  /** Then the history up to that call shows it. */
  lemma {:induction false} HaltedHistory(limit: int, h: seq<Tracker.Event>, i: nat, calls: seq<Call>, n: nat,
          tools: Tools)
    requires n < |calls| && StagnatesAt(limit, h, i, calls, n, tools)
    ensures Tracker.Stagnated(h + ActEvents(i, calls, n + 1, tools), limit)
  {
    hide Tracker.Stagnated, Tracker.IsNoise, RunOf;
    OneMoreCall(h, Repro.Undeclared, false, i, calls, n, tools);
    CallEvents(h + ActEvents(i, calls, n, tools), calls[n], tools.answer(i, n), tools.isAssertion);
  }

  /** Runs one call; kill is the verdict of the stagnation detector on it. */
  method Dispatch(c: Call, a: ToolAnswer, isAssertion: string -> bool, gs: GateKeeper, tr: Tracker.TurnTracker)
    returns (isErr: bool, kill: bool)
    requires tr.Valid()
    modifies tr, gs.repro
    ensures tr.Valid() && tr.observations == old(tr.observations)
    ensures tr.history == old(tr.history) + EventsOfRun(c, a, isAssertion)
    ensures kill <==> Stagnates(old(tr.history), c, a, isAssertion, tr.maxStagnant)
    ensures gs.repro.state == ReproStep(old(gs.repro.state), a.repro, gs.pol.reproFirst)
    ensures isErr == Fails(old(gs.repro.state), a, gs.pol.reproFirst)
  {
    hide IsRun, Tracker.IsNoise, Tracker.CountsFailures, Tracker.CountsPasses, Tracker.CountsStrings,
      Tracker.LastFailed, Tracker.Stagnated, Repro.Locks, Runs.Observe;
    isErr, kill := a.isErr, false;
    if gs.pol.reproFirst && a.repro.Declare? {
      var accepted, tree, attempts := gs.repro.DeclareRepro(a.repro.cmd, a.repro.tree, a.repro.w);
      isErr := !accepted;
    } else if gs.pol.reproFirst && a.repro.Skip? {
      var accepted := gs.repro.SkipRepro(a.repro.reason);
      isErr := !accepted;
    }
    if IsRun(c.name) {
      var count;
      kill, count := tr.ObserveRun(RunOf(a, isAssertion));
      tr.ValidMeans();
      Tracker.CountedFailures(tr.history, tr.stagnant, tr.lastRunFP, tr.maxStagnant);
    }
  }

  // ---- results in order --------------------------------------------------------------------------------

  /** m is the result of call c, with this reply. */
  predicate AnswersCall(m: Message, c: Call, reply: Reply) {
    m == ToolResultMsg(c.id, reply.text, reply.isErr)
  }

  lemma ResultAnswers(c: Call, text: string, isErr: bool)
    ensures AnswersCall(ToolResultMsg(c.id, text, isErr), c, Reply(text, isErr))
  {
  }

  /** The messages rs answer calls[n..], in order; each is the reply it is given to be. */
  ghost predicate InOrder(rs: seq<Message>, calls: seq<Call>, n: nat, reply: nat -> Reply) {
    n + |rs| <= |calls| && forall k :: 0 <= k < |rs| ==> AnswersCall(rs[k], calls[n + k], reply(n + k))
  }

  lemma InOrderSnoc(rs: seq<Message>, calls: seq<Call>, n: nat, reply: nat -> Reply, m: Message)
    requires InOrder(rs, calls, n, reply) && n + |rs| < |calls| && AnswersCall(m, calls[n + |rs|], reply(n + |rs|))
    ensures InOrder(rs + [m], calls, n, reply)
  {
    hide AnswersCall;
  }

  /** One result for every call settles a turn. */
  lemma {:induction false} InOrderSettles(rs: seq<Message>, calls: seq<Call>, reply: nat -> Reply)
    requires InOrder(rs, calls, 0, reply)
    ensures AllResults(rs) && ResultBag(rs) == IdBag(calls[..|rs|])
    decreases |rs|
  {
    if rs == [] {
      assert calls[..0] == [];
    } else {
      var n := |rs| - 1;
      assert rs[..n] + [rs[n]] == rs;
      InOrderSettles(rs[..n], calls, reply);
      BagSnoc(rs[..n], rs[n]);
      IdBagSnoc(calls, n);
    }
  }

  /** What the calls of a turn meet: its number, the tools, and the repro state it starts from. */
  datatype Scene = Scene(i: nat, tools: Tools, repro: Repro.State, reproFirst: bool) {
    function Answer(k: nat): ToolAnswer { tools.answer(i, k) }
  }

  /** What the model is told of the calls of an acting turn, when the run is killed after call last. */
  function Shown(e: Scene, calls: seq<Call>, last: nat): nat -> Reply {
    (k: nat) =>
      if k <= last && k < |calls| then
        Reply(e.Answer(k).shown,
            Fails(ReproActs(e.repro, e.reproFirst, e.i, calls, k, e.tools), e.Answer(k), e.reproFirst))
      else Reply(NOT_EXECUTED, true)
  }

  /** Message by message: what each call that was run answered, and that those after a kill were not executed. */
  lemma ShownMeans(rs: seq<Message>, calls: seq<Call>, e: Scene, last: nat, k: nat)
    requires InOrder(rs, calls, 0, Shown(e, calls, last)) && k < |rs|
    ensures k > last ==>
              rs[k] == ToolResultMsg(calls[k].id, "not executed: run stopped by the no-progress detector", true)
    ensures k <= last ==> exists isErr :: rs[k] == ToolResultMsg(calls[k].id, e.tools.answer(e.i, k).shown, isErr)
    ensures k <= last && !e.reproFirst ==>
              rs[k] == ToolResultMsg(calls[k].id, e.tools.answer(e.i, k).shown, e.tools.answer(e.i, k).isErr)
  {
    hide ReproActs;
    assert AnswersCall(rs[k], calls[0 + k], Shown(e, calls, last)(0 + k));
  }

  function NotExecuted(k: nat): Reply {
    Reply(NOT_EXECUTED, true)
  }

  lemma InOrderJoin(rs: seq<Message>, rest: seq<Message>, calls: seq<Call>, e: Scene, last: nat, later: nat)
    requires last < later && |rs| == last + 1
    requires InOrder(rs, calls, 0, Shown(e, calls, later)) && InOrder(rest, calls, last + 1, NotExecuted)
    ensures InOrder(rs + rest, calls, 0, Shown(e, calls, last))
  {
    hide AnswersCall, Fails, ReproActs, e.Answer;
    forall k | 0 <= k < |rs + rest|
      ensures AnswersCall((rs + rest)[k], calls[k], Shown(e, calls, last)(k))
    {
      if k > last {
        assert (rs + rest)[k] == rest[k - |rs|];
      }
    }
  }

  lemma NothingShown(calls: seq<Call>, reply: nat -> Reply)
    ensures forall n :: 0 <= n <= |calls| ==> InOrder([], calls, n, reply)
  {
  }

  /** The reply to the k-th call, when the gate is in the state that the calls before it led to. */
  lemma {:induction false} ShownIs(e: Scene, calls: seq<Call>, last: nat, k: nat, s: Repro.State)
    requires k <= last && k < |calls|
    requires e.repro == Repro.Core(s)
    ensures Shown(e, calls, last)(k) ==
            Reply(e.tools.answer(e.i, k).shown,
                  Fails(ReproActs(s, e.reproFirst, e.i, calls, k, e.tools), e.tools.answer(e.i, k), e.reproFirst))
  {
    hide Fails, ReproActs, Repro.Core;
    ActsCore(s, e.reproFirst, e.i, calls, k, e.tools);
    FailsCore(ReproActs(s, e.reproFirst, e.i, calls, k, e.tools), e.Answer(k), e.reproFirst);
  }

  // ---- the loops over the calls -------------------------------------------------------------------------

  /** How many calls of a turn were dispatched. */
  function Dispatched(killed: bool, last: nat, calls: seq<Call>): nat {
    if killed then last + 1 else |calls|
  }

  /** Runs the n-th call of an acting turn, and tells the tracker what kind of action it was. */
  method DispatchOne(i: nat, calls: seq<Call>, n: nat, tools: Tools, gs: GateKeeper, tr: Tracker.TurnTracker)
    returns (m: Message, kill: bool)
    requires tr.Valid() && n < |calls|
    modifies tr, gs.repro
    ensures tr.Valid() && tr.observations == old(tr.observations)
    ensures AnswersCall(m, calls[n],
              Reply(tools.answer(i, n).shown, Fails(old(gs.repro.state), tools.answer(i, n), gs.pol.reproFirst)))
    ensures kill <==> Stagnates(old(tr.history), calls[n], tools.answer(i, n), tools.isAssertion, tr.maxStagnant)
    ensures tr.history == old(tr.history) + EventsOfCall(calls[n], tools.answer(i, n), tools.isAssertion)
    ensures gs.repro.state == ReproStep(old(gs.repro.state), tools.answer(i, n).repro, gs.pol.reproFirst)
  {
    hide *;
    var c, a := calls[n], tools.answer(i, n);
    var isErr;
    isErr, kill := Dispatch(c, a, tools.isAssertion, gs, tr);
    var mutated := tr.ObserveAction(i, c.name);
    CallEvents(old(tr.history), c, a, tools.isAssertion);
    m := ToolResultMsg(c.id, a.shown, isErr);
    ResultAnswers(c, a.shown, isErr);
  }

  lemma CallEvents(h: seq<Tracker.Event>, c: Call, a: ToolAnswer, isAssertion: string -> bool)
    ensures h + EventsOfCall(c, a, isAssertion) ==
            var ran := h + EventsOfRun(c, a, isAssertion);
            if Tracker.MutatesFile(c.name) then ran + [Tracker.Mutated] else ran
  {
    hide EventsOfRun, Tracker.MutatesFile;
  }

  /**
   Dispatches the calls of a turn in order, one result for each.  When the stagnation detector kills
   the run in mid-turn, the calls after it are not dispatched but still answered.
  */
  method DispatchCalls(i: nat, calls: seq<Call>, tools: Tools, gs: GateKeeper, tr: Tracker.TurnTracker)
    returns (rs: seq<Message>, killed: bool, last: nat)
    requires tr.Valid()
    modifies tr, gs.repro
    ensures tr.Valid() && tr.observations == old(tr.observations)
    ensures |rs| == |calls|
    ensures InOrder(rs, calls, 0,
              Shown(Scene(i, tools, Repro.Core(old(gs.repro.state)), gs.pol.reproFirst), calls, last))
    ensures last <= |calls| && (killed <==> last < |calls|)
    ensures killed ==> StagnatesAt(tr.maxStagnant, old(tr.history), i, calls, last, tools)
    ensures forall n :: 0 <= n < last ==> !StagnatesAt(tr.maxStagnant, old(tr.history), i, calls, n, tools)
    ensures Dispatched(killed, last, calls) <= |calls|
    ensures tr.history == old(tr.history) + ActEvents(i, calls, Dispatched(killed, last, calls), tools)
    ensures gs.repro.state ==
            ReproActs(old(gs.repro.state), gs.pol.reproFirst, i, calls, Dispatched(killed, last, calls), tools)
  {
    hide *;
    rs := [];
    ghost var e := Scene(i, tools, Repro.Core(gs.repro.state), gs.pol.reproFirst);
    ghost var shown := Shown(e, calls, |calls|);
    NothingShown(calls, shown);
    NothingDispatched(gs.repro.state, gs.pol.reproFirst, i, calls, tools);
    DispatchedIs(0, calls);
    assert old(tr.history) + [] == tr.history;
    var n: nat := 0;
    while n < |calls|
      invariant n <= |calls| && |rs| == n && tr.Valid() && tr.observations == old(tr.observations)
      invariant InOrder(rs, calls, 0, shown)
      invariant forall k :: 0 <= k < n ==> !StagnatesAt(tr.maxStagnant, old(tr.history), i, calls, k, tools)
      invariant tr.history == old(tr.history) + ActEvents(i, calls, n, tools)
      invariant gs.repro.state == ReproActs(old(gs.repro.state), gs.pol.reproFirst, i, calls, n, tools)
    {
      OneMoreCall(old(tr.history), old(gs.repro.state), gs.pol.reproFirst, i, calls, n, tools);
      StagnatesHere(tr.maxStagnant, old(tr.history), i, calls, n, tools);
      var m, kill := DispatchOne(i, calls, n, tools, gs, tr);
      ShownIs(e, calls, |calls|, n, old(gs.repro.state));
      InOrderSnoc(rs, calls, 0, shown, m);
      rs := rs + [m];
      if kill {
        var rest := AnswerRest(calls, n + 1);
        InOrderJoin(rs, rest, calls, e, n, |calls|);
        DispatchedIs(n, calls);
        return rs + rest, true, n;
      }
      n := n + 1;
    }
    DispatchedIs(n, calls);
    return rs, false, |calls|;
  }

  lemma {:induction false} StagnatesHere(limit: int, h: seq<Tracker.Event>, i: nat, calls: seq<Call>, n: nat,
          tools: Tools)
    requires n < |calls|
    ensures StagnatesAt(limit, h, i, calls, n, tools) <==>
            Stagnates(h + ActEvents(i, calls, n, tools), calls[n], tools.answer(i, n), tools.isAssertion, limit)
  {
    hide Stagnates;
  }

  lemma DispatchedIs(last: nat, calls: seq<Call>)
    ensures Dispatched(true, last, calls) == last + 1 && Dispatched(false, |calls|, calls) == |calls|
  {
  }

  lemma {:induction false} NothingDispatched(s: Repro.State, reproFirst: bool, i: nat, calls: seq<Call>, tools: Tools)
    ensures ActEvents(i, calls, 0, tools) == [] && ReproActs(s, reproFirst, i, calls, 0, tools) == s
  {
  }

  lemma OneMoreCall(h: seq<Tracker.Event>, s: Repro.State, reproFirst: bool, i: nat, calls: seq<Call>, n: nat,
          tools: Tools)
    requires n < |calls|
    ensures h + ActEvents(i, calls, n + 1, tools) ==
            h + ActEvents(i, calls, n, tools) + EventsOfCall(calls[n], tools.answer(i, n), tools.isAssertion)
    ensures ReproActs(s, reproFirst, i, calls, n + 1, tools) ==
            ReproStep(ReproActs(s, reproFirst, i, calls, n, tools), tools.answer(i, n).repro, reproFirst)
  {
    hide EventsOfCall, ReproStep;
  }

  /** Answers the calls that are not dispatched any more. */
  method AnswerRest(calls: seq<Call>, from: nat) returns (rs: seq<Message>)
    requires from <= |calls|
    ensures |rs| == |calls| - from && InOrder(rs, calls, from, NotExecuted)
  {
    rs := [];
    NothingShown(calls, NotExecuted);
    hide InOrder, AnswersCall, NOT_EXECUTED;
    var n := from;
    while n < |calls|
      invariant from <= n <= |calls| && |rs| == n - from
      invariant InOrder(rs, calls, from, NotExecuted)
    {
      var m := ToolResultMsg(calls[n].id, NOT_EXECUTED, true);
      ResultAnswers(calls[n], NOT_EXECUTED, true);
      InOrderSnoc(rs, calls, from, NotExecuted, m);
      rs := rs + [m];
      n := n + 1;
    }
  }

  // ---- the finishing turn ------------------------------------------------------------------------------

  /** The positions of the calls before n whose id is not that of the finish call. */
  function Others(calls: seq<Call>, n: nat, fin: string): seq<nat>
    requires n <= |calls|
  {
    if n == 0 then [] else Others(calls, n - 1, fin) + if calls[n - 1].id == fin then [] else [n - 1]
  }

  lemma {:induction false} OthersBefore(calls: seq<Call>, n: nat, fin: string)
    requires n <= |calls|
    ensures forall k :: 0 <= k < |Others(calls, n, fin)| ==> Others(calls, n, fin)[k] < n
  {
    if n > 0 {
      OthersBefore(calls, n - 1, fin);
    }
  }

  /** What the model is told of the j-th call of a finishing turn. */
  function OtherReply(e: Scene, calls: seq<Call>, j: nat, fin: string): Reply
    requires j < |calls|
  {
    Reply(e.Answer(j).raw,
        Fails(ReproOthers(e.repro, e.reproFirst, e.i, calls, j, fin, e.tools), e.Answer(j), e.reproFirst))
  }

  lemma {:induction false} OtherReplyIs(e: Scene, calls: seq<Call>, j: nat, fin: string, s: Repro.State)
    requires j < |calls| && e.repro == Repro.Core(s)
    ensures OtherReply(e, calls, j, fin) ==
            Reply(e.tools.answer(e.i, j).raw,
                  Fails(ReproOthers(s, e.reproFirst, e.i, calls, j, fin, e.tools), e.tools.answer(e.i, j),
                      e.reproFirst))
  {
    hide Fails, ReproOthers, Repro.Core;
    OthersCore(s, e.reproFirst, e.i, calls, j, fin, e.tools);
    FailsCore(ReproOthers(s, e.reproFirst, e.i, calls, j, fin, e.tools), e.Answer(j), e.reproFirst);
  }

  /** rs are the results of those calls, in order. */
  ghost predicate OthersInOrder(rs: seq<Message>, calls: seq<Call>, n: nat, fin: string, e: Scene)
    requires n <= |calls|
  {
    && |rs| == |Others(calls, n, fin)|
    && forall k :: 0 <= k < |rs| ==>
         var j := Others(calls, n, fin)[k]; j < |calls| && AnswersCall(rs[k], calls[j], OtherReply(e, calls, j, fin))
  }

  lemma OthersInOrderStep(rs: seq<Message>, calls: seq<Call>, n: nat, fin: string, e: Scene, m: Message)
    requires n < |calls| && OthersInOrder(rs, calls, n, fin, e)
    ensures calls[n].id == fin ==> OthersInOrder(rs, calls, n + 1, fin, e)
    ensures calls[n].id != fin && AnswersCall(m, calls[n], OtherReply(e, calls, n, fin)) ==>
              OthersInOrder(rs + [m], calls, n + 1, fin, e)
  {
    hide AnswersCall, OtherReply;
  }

  lemma NoOthersYet(calls: seq<Call>, fin: string, e: Scene)
    ensures OthersInOrder([], calls, 0, fin, e)
  {
  }

  lemma OthersInOrderLast(rs: seq<Message>, calls: seq<Call>, n: nat, fin: string, e: Scene)
    requires n < |calls| && OthersInOrder(rs, calls, n + 1, fin, e)
    ensures calls[n].id == fin ==> OthersInOrder(rs, calls, n, fin, e)
    ensures calls[n].id != fin ==>
              rs != [] && OthersInOrder(rs[..|rs| - 1], calls, n, fin, e)
                && ResultId(rs[|rs| - 1]) == calls[n].id
              && IsResult(rs[|rs| - 1])
  {
    hide OtherReply;
    var js, ks := Others(calls, n, fin), Others(calls, n + 1, fin);
    if calls[n].id == fin {
      assert ks == js;
    } else {
      assert ks == js + [n] && ks[|rs| - 1] == n;
      forall k | 0 <= k < |js|
        ensures js[k] < |calls| && AnswersCall(rs[..|rs| - 1][k], calls[js[k]], OtherReply(e, calls, js[k], fin))
      {
        assert ks[k] == js[k];
      }
    }
  }

  lemma {:induction false} NoOthersSettle(rs: seq<Message>, calls: seq<Call>, fin: string, e: Scene)
    requires OthersInOrder(rs, calls, 0, fin, e)
    ensures AllResults(rs) && ResultBag(rs) == IdBag(calls[..0])[fin := 0]
  {
    assert calls[..0] == [] && rs == [];
  }

  /** The results of the other calls answer every id of the turn but the finish call's. */
  lemma {:induction false} OthersSettle(rs: seq<Message>, calls: seq<Call>, n: nat, fin: string, e: Scene)
    requires n <= |calls| && OthersInOrder(rs, calls, n, fin, e)
    ensures AllResults(rs) && ResultBag(rs) == IdBag(calls[..n])[fin := 0]
    decreases n
  {
    hide OthersInOrder, IdBag, ResultBag, Others, ResultId, IsResult;
    if n == 0 {
      NoOthersSettle(rs, calls, fin, e);
    } else {
      IdBagSnoc(calls, n - 1);
      OthersInOrderLast(rs, calls, n - 1, fin, e);
      if calls[n - 1].id == fin {
        OthersSettle(rs, calls, n - 1, fin, e);
      } else {
        var k := |rs| - 1;
        assert rs[..k] + [rs[k]] == rs;
        OthersSettle(rs[..k], calls, n - 1, fin, e);
        BagSnoc(rs[..k], rs[k]);
      }
    }
  }

  lemma OneForAll(b: multiset<string>, fin: string)
    ensures b[fin := 0] + multiset{fin} == b <==> b[fin] == 1
  {
    assert (b[fin := 0] + multiset{fin})[fin] == 1;
  }

  /** The results of a finishing turn: those of the other calls, and then that of the finish call. */
  ghost predicate Finished(rs: seq<Message>, calls: seq<Call>, f: nat, text: string, e: Scene)
    requires f < |calls|
  {
    && rs != [] && OthersInOrder(rs[..|rs| - 1], calls, |calls|, calls[f].id, e)
    && AnswersCall(rs[|rs| - 1], calls[f], Reply(text, false))
  }

  /** They settle the turn exactly when no other call shares the id of the finish call. */
  lemma {:induction false} FinishTurnPaired(rs: seq<Message>, calls: seq<Call>, f: nat, text: string, e: Scene)
    requires f < |calls| && Finished(rs, calls, f, text, e)
    ensures AllResults(rs)
    ensures ResultBag(rs) == IdBag(calls) <==> IdBag(calls)[calls[f].id] == 1
  {
    hide IdBag, ResultBag, OthersInOrder;
    var k, fin := |rs| - 1, calls[f].id;
    OthersSettle(rs[..k], calls, |calls|, fin, e);
    BagSnoc(rs[..k], rs[k]);
    OneForAll(IdBag(calls), fin);
    assert rs[..k] + [rs[k]] == rs && calls[..|calls|] == calls;
  }

  /**
   A turn that calls the finish tool: the other calls run first, and the finish call itself gets a
   result of its own, last.  The transcript stays one a provider accepts exactly when no other call of
   the turn shares the finish call's id.
  */
  method FinishToolCalls(i: nat, content: seq<Part>, f: nat, text: string, tools: Tools, gs: GateKeeper,
          tr: Tracker.TurnTracker, ghost msgs: seq<Message>)
    returns (rs: seq<Message>)
    requires tr.Valid() && f < |ToolCalls(content)|
    modifies tr, gs.repro
    ensures tr.Valid() && tr.observations == old(tr.observations)
    ensures Finished(rs, ToolCalls(content), f, text,
              Scene(i, tools, Repro.Core(old(gs.repro.state)), gs.pol.reproFirst))
    ensures WellFormed(msgs) ==>
              (WellFormed(msgs + [Message(Assistant, content)] + rs) <==>
                  IdBag(ToolCalls(content))[ToolCalls(content)[f].id] == 1)
    ensures tr.history ==
            old(tr.history) + FinishEvents(i, ToolCalls(content), |ToolCalls(content)|, ToolCalls(content)[f].id, tools)
    ensures gs.repro.state ==
            ReproOthers(old(gs.repro.state), gs.pol.reproFirst, i, ToolCalls(content), |ToolCalls(content)|,
                ToolCalls(content)[f].id, tools)
  {
    hide *;
    var calls := ToolCalls(content);
    var fin := calls[f].id;
    ghost var e := Scene(i, tools, Repro.Core(gs.repro.state), gs.pol.reproFirst);
    rs := [];
    NoOthersYet(calls, fin, e);
    NoOtherEvents(gs.repro.state, gs.pol.reproFirst, i, calls, fin, tools);
    assert old(tr.history) + [] == tr.history;
    var n: nat := 0;
    while n < |calls|
      invariant n <= |calls| && tr.Valid() && tr.observations == old(tr.observations)
      invariant OthersInOrder(rs, calls, n, fin, e)
      invariant tr.history == old(tr.history) + FinishEvents(i, calls, n, fin, tools)
      invariant gs.repro.state == ReproOthers(old(gs.repro.state), gs.pol.reproFirst, i, calls, n, fin, tools)
    {
      var c := calls[n];
      OneMoreOther(old(tr.history), old(gs.repro.state), gs.pol.reproFirst, i, calls, n, fin, tools);
      if c.id == fin {
        OthersInOrderStep(rs, calls, n, fin, e, ToolResultMsg("", "", false));
        n := n + 1;
        continue;
      }
      var a := tools.answer(i, n);
      var isErr, kill := Dispatch(c, a, tools.isAssertion, gs, tr);
      var m := ToolResultMsg(c.id, a.raw, isErr);
      OtherReplyIs(e, calls, n, fin, old(gs.repro.state));
      ResultAnswers(c, a.raw, isErr);
      OthersInOrderStep(rs, calls, n, fin, e, m);
      rs := rs + [m];
      n := n + 1;
    }
    var m := ToolResultMsg(fin, text, false);
    ResultAnswers(calls[f], text, false);
    assert (rs + [m])[..|rs|] == rs;
    rs := rs + [m];
    IsFinished(rs, calls, f, text, e);
    FinishTurnPaired(rs, calls, f, text, e);
    if WellFormed(msgs) {
      TurnPaired(msgs, content, rs);
    }
  }

  lemma IsFinished(rs: seq<Message>, calls: seq<Call>, f: nat, text: string, e: Scene)
    requires f < |calls| && rs != [] && OthersInOrder(rs[..|rs| - 1], calls, |calls|, calls[f].id, e)
    requires AnswersCall(rs[|rs| - 1], calls[f], Reply(text, false))
    ensures Finished(rs, calls, f, text, e)
  {
    hide OthersInOrder, AnswersCall;
  }

  lemma {:induction false} NoOtherEvents(s: Repro.State, reproFirst: bool, i: nat, calls: seq<Call>, fin: string,
          tools: Tools)
    ensures FinishEvents(i, calls, 0, fin, tools) == [] && ReproOthers(s, reproFirst, i, calls, 0, fin, tools) == s
  {
  }

  lemma OneMoreOther(h: seq<Tracker.Event>, s: Repro.State, reproFirst: bool, i: nat, calls: seq<Call>, n: nat,
          fin: string, tools: Tools)
    requires n < |calls|
    ensures h + FinishEvents(i, calls, n + 1, fin, tools) ==
            h + FinishEvents(i, calls, n, fin, tools) +
            if calls[n].id == fin then [] else EventsOfRun(calls[n], tools.answer(i, n), tools.isAssertion)
    ensures ReproOthers(s, reproFirst, i, calls, n + 1, fin, tools) ==
            var t := ReproOthers(s, reproFirst, i, calls, n, fin, tools);
            if calls[n].id == fin then t else ReproStep(t, tools.answer(i, n).repro, reproFirst)
  {
    hide EventsOfRun, ReproStep;
  }
}
