/**
 What a run of the turn loop did, turn by turn, and what its record says: what the detectors have
 seen, what is on the account, the state of the repro gate, and the transcript.  Everything outside
 the loop is an arbitrary function of the turn, so that what is proved of a record holds for every run.
*/
module NativeTrace {
  import opened Texts
  import opened Transcript
  import opened Eviction
  import opened Generate
  import opened Spending
  import opened Gates
  import opened NativeDispatch
  import Review
  import Repro
  import Tracker
  import Spiral

  datatype LoopPolicy = LoopPolicy(
    maxIter: nat, maxTotalTokens: int, maxCost: real, allowUnpriced: bool, solver: string,
    finishTool: string, finishTrusts: bool,
    maxRepeats: int, maxReasoningRepeats: int, maxStagnant: int, greenRepeats: int,
    window: int, wanderMultiple: int, frontierCap: nat)

  /** Everything outside the loop, by turn (and by position of the call in its turn). */
  datatype World = World(
    canceled: nat -> bool,            // the caller has canceled when the turn starts
    deadline: nat -> bool,            // the wall clock has run out when the turn starts
    standing: nat -> string,          // the standing block shown before the turn, "" for none
    provider: Provider,
    costFn: Option<Usage -> Option<real>>,
    callDeadline: nat -> bool,        // the wall clock ran out during the model call
    callCanceled: nat -> bool,
    argOf: Call -> string,            // the canonical form of a call's arguments
    targetOf: Call -> string,         // the directory or query that a discovery call names
    tools: Tools,
    repeatNudge: nat -> string,       // the hint at the n-th identical turn
    nudges: nat -> seq<string>,       // other hints appended after the results of the turn
    silentNudge: string,              // what a turn without any text is told
    finishText: Call -> string,       // the message that a call of the finish tool carries
    finish: nat -> FinishWorld,
    feedback: Reason -> string,       // how a rejection is worded
    upgrade: UpgradeWorld)

  // ---- reading a response ----------------------------------------------------------------------------

  function ReasoningSignature(parts: seq<Part>): string {
    if parts == [] then ""
    else (if parts[0].Reasoning? then parts[0].raw else "") + ReasoningSignature(parts[1..])
  }

  function TextOf(parts: seq<Part>): string {
    if parts == [] then "" else (if parts[0].Text? then parts[0].text else "") + TextOf(parts[1..])
  }

  /**
   A response is read part by part: each text, each piece of reasoning and each call counts, in order,
   and nothing else does.
  */
  lemma {:induction false} ReadInOrder(a: seq<Part>, b: seq<Part>)
    ensures TextOf(a + b) == TextOf(a) + TextOf(b)
    ensures ReasoningSignature(a + b) == ReasoningSignature(a) + ReasoningSignature(b)
    ensures ToolCalls(a + b) == ToolCalls(a) + ToolCalls(b)
    decreases |a|
  {
    if a == [] {
      assert a + b == b;
    } else {
      assert (a + b)[1..] == a[1..] + b;
      ReadInOrder(a[1..], b);
    }
  }

  lemma {:induction false} ReadOne(p: Part)
    ensures TextOf([p]) == match p { case Text(text) => text case _ => "" }
    ensures ReasoningSignature([p]) == match p { case Reasoning(raw) => raw case _ => "" }
    ensures ToolCalls([p]) == match p { case ToolCall(c) => [c] case _ => [] }
  {
  }

  function TurnSignature(calls: seq<Call>, argOf: Call -> string): string {
    if calls == [] then ""
    else
      calls[0].name + " " + argOf(calls[0]) +
      if |calls| == 1 then "" else " | " + TurnSignature(calls[1..], argOf)
  }

  /** A turn that calls something has a signature. */
  lemma {:induction false} SignatureNotEmpty(calls: seq<Call>, argOf: Call -> string)
    requires calls != []
    ensures TurnSignature(calls, argOf) != ""
  {
    assert |TurnSignature(calls, argOf)| >= 1;
  }

  predicate IsDiscovery(name: string) {
    name == "list_dir" || name == "search"
  }

  predicate AllDiscovery(calls: seq<Call>) {
    calls != [] && forall c :: c in calls ==> IsDiscovery(c.name)
  }

  function TargetsOf(calls: seq<Call>, targetOf: Call -> string): seq<string> {
    seq(|calls|, i requires 0 <= i < |calls| => targetOf(calls[i]))
  }

  /** What was asked and what came back, as the detector of repeated observations compares it. */
  function ObservationKey(i: nat, calls: seq<Call>, n: nat, w: World): string
    requires n <= |calls|
    decreases |calls| - n
  {
    if n == |calls| then ""
    else
      calls[n].name + " " + w.argOf(calls[n]) + "\nOBSERVATION:\n" + w.tools.answer(i, n).raw +
      if n + 1 == |calls| then "" else "\n---CALL---\n" + ObservationKey(i, calls, n + 1, w)
  }

  lemma {:induction false} ObservationNotEmpty(i: nat, calls: seq<Call>, w: World)
    requires calls != []
    ensures ObservationKey(i, calls, 0, w) != ""
  {
    assert |ObservationKey(i, calls, 0, w)| >= 1;
  }

  /** A turn acts if it calls something, and not the finish tool. */
  predicate Acts(content: seq<Part>, pol: LoopPolicy) {
    ToolCalls(content) != []
      && (pol.finishTool == "" || FindCall(ToolCalls(content), pol.finishTool) == |ToolCalls(content)|)
  }

  /** A turn finishes if it calls the finish tool. */
  predicate Finishes(content: seq<Part>, pol: LoopPolicy) {
    pol.finishTool != "" && FindCall(ToolCalls(content), pol.finishTool) < |ToolCalls(content)|
  }

  // ---- one turn ----------------------------------------------------------------------------------------

  /** The account at the start of a turn. */
  datatype Start = Start(tokens: int, charges: seq<Charge>)

  /**
   How far a turn got: the model call failed; it was cut before dispatch as a repetition or as an
   endless exploration; it was cut after one of its calls, or after all of them as a repetition of
   what they showed; or it came to its end.
  */
  datatype Reach = Failed | Repeated | Spiralled | Halted(last: nat) | Stalled | Whole

  /**
   One turn: the account it started from, what it sent, its last model call, how far it got, and the
   transcript it left.
  */
  datatype Record = Record(
    start: Start, sent: seq<Message>, call: nat, reach: Reach, after: seq<Message>, closed: Closed, memory: Memory)

  /** Whether a turn came before the gates; then what they decided, and the ruling of the review if it was asked. */
  datatype Closed = NotClosed | Closed(decision: Decision, ruling: Option<Review.Ruling>)

  /** What the detectors have seen of a run. */
  datatype Seen = Seen(
    sigs: seq<string>, observations: seq<string>, history: seq<Tracker.Event>, burst: seq<Spiral.Turn>)

  /** How many of its calls a turn that acts dispatched. */
  function DispatchedBy(reach: Reach, calls: seq<Call>): (n: nat)
    ensures n <= |calls|
  {
    match reach
    case Halted(last) => if last < |calls| then last + 1 else |calls|
    case Stalled => |calls|
    case Whole => |calls|
    case _ => 0
  }

  /** What turn i adds to what the detectors have seen. */
  function SeenNext(s: Seen, w: World, pol: LoopPolicy, i: nat, content: seq<Part>, reach: Reach): Seen {
    var calls := ToolCalls(content);
    if reach.Failed? then s
    else if Acts(content, pol) then
      Seen(s.sigs + [TurnSignature(calls, w.argOf)],
           if reach.Stalled? || reach.Whole? then s.observations + [ObservationKey(i, calls, 0, w)] else s.observations,
           s.history + ActEvents(i, calls, DispatchedBy(reach, calls), w.tools),
           if reach.Repeated? then s.burst
           else if AllDiscovery(calls) then s.burst + [TargetsOf(calls, w.targetOf)] else [])
    else if Finishes(content, pol) then
      s.(history := s.history + FinishEvents(i, calls, |calls|, calls[FindCall(calls, pol.finishTool)].id, w.tools))
    else s
  }

  /** What turn i makes of the repro state, up to how a locked test did. */
  function ReproNext(s: Repro.State, reproFirst: bool, w: World, pol: LoopPolicy, i: nat, content: seq<Part>,
          reach: Reach): Repro.State {
    var calls := ToolCalls(content);
    if reach.Failed? then s
    else if Acts(content, pol) then ReproActs(s, reproFirst, i, calls, DispatchedBy(reach, calls), w.tools)
    else if Finishes(content, pol) then
      ReproOthers(s, reproFirst, i, calls, |calls|, calls[FindCall(calls, pol.finishTool)].id, w.tools)
    else s
  }

  /** The hidden reasoning has moved since it was last looked at. */
  predicate Advanced(last: string, content: seq<Part>) {
    ReasoningSignature(content) != "" && ReasoningSignature(content) != last
  }

  /** A turn without calls or text, where a call of the finish tool is still expected. */
  predicate Silent(w: World, pol: LoopPolicy, i: nat, content: seq<Part>) {
    ToolCalls(content) == [] && TrimSpace(TextOf(content)) == "" && pol.finishTool != "" && i < pol.maxIter
  }

  /** The reasoning that the next turn is compared with. */
  function ReasoningNext(last: string, w: World, pol: LoopPolicy, i: nat, content: seq<Part>, reach: Reach): string {
    if reach.Failed? || reach.Repeated? then last
    else if Acts(content, pol) || (Silent(w, pol, i, content) && Advanced(last, content)) then
      ReasoningSignature(content)
    else last
  }

  function Remember(text: string, lastText: string): string {
    if text != "" then text else lastText
  }

  /** What a turn that does not act puts to the gates. */
  function InputAt(w: World, pol: LoopPolicy, i: nat, content: seq<Part>, lastRunFailed: bool): FinishInput {
    if Finishes(content, pol) then
      var text := w.finishText(ToolCalls(content)[FindCall(ToolCalls(content), pol.finishTool)]);
      FinishInput(text, TrimSpace(text) == "", lastRunFailed, i < pol.maxIter, pol.finishTrusts)
    else
      var answer := TrimSpace(TextOf(content));
      FinishInput(answer, TrimSpace(answer) == "", lastRunFailed, i < pol.maxIter, false)
  }

  /** What a turn that took in its response asked of the gates, which remembered m, and got from them. */
  ghost predicate ClosesAt(gs: GateKeeper, w: World, pol: LoopPolicy, i: nat, content: seq<Part>, lastRunFailed: bool,
          repro: Repro.State, m: Memory, closed: Closed, m': Memory)
  {
    if Acts(content, pol) || Silent(w, pol, i, content) then closed.NotClosed? && m' == m
    else
      && closed.Closed?
      && gs.Decides(InputAt(w, pol, i, content, lastRunFailed), w.finish(i), repro, m, closed.ruling, closed.decision,
           m')
  }

  /** What the gates' decision tells the model: why the finish is sent back. */
  function Feedback(w: World, closed: Closed): seq<Message> {
    match closed
    case Closed(Continue(why), _) => [UserMsg(w.feedback(why))]
    case _ => []
  }

  /** What follows the response of a turn that does not act: the feedback, or the nudge to say something. */
  function Afterword(w: World, pol: LoopPolicy, i: nat, content: seq<Part>, last: string,
          closed: Closed): seq<Message> {
    if closed.Closed? then Feedback(w, closed)
    else if Silent(w, pol, i, content) && !Advanced(last, content) then [UserMsg(w.silentNudge)]
    else []
  }

  // ---- why a turn is cut --------------------------------------------------------------------------------

  function RepeatThreshold(pol: LoopPolicy, advanced: bool): int {
    if advanced then pol.maxReasoningRepeats else pol.maxRepeats
  }

  /** The same turn has now been repeated as often as is allowed. */
  ghost predicate Reissued(pol: LoopPolicy, advanced: bool, sigs: seq<string>) {
    var limit := RepeatThreshold(pol, advanced);
    Tracker.EndsInSeries(sigs, if limit >= 1 then limit + 1 else 2)
  }

  /** The exploration has used up its bounds. */
  ghost predicate Wandered(pol: LoopPolicy, calls: seq<Call>, burst: seq<Spiral.Turn>) {
    AllDiscovery(calls) && Spiral.Spent(burst, pol.frontierCap, pol.window, pol.wanderMultiple)
  }

  /** The same turn has now shown the same as often as is allowed. */
  ghost predicate Echoes(pol: LoopPolicy, observations: seq<string>) {
    Tracker.EndsInSeries(observations, if pol.maxReasoningRepeats >= 1 then pol.maxReasoningRepeats else 1)
  }

  /** How far a turn that acts gets is decided by what the detectors have seen, and by nothing else. */
  ghost predicate Decided(w: World, pol: LoopPolicy, i: nat, content: seq<Part>, advanced: bool, before: Seen,
          reach: Reach) {
    var calls := ToolCalls(content);
    var seen := SeenNext(before, w, pol, i, content, reach);
    && !reach.Failed?
    && (reach.Repeated? <==> Reissued(pol, advanced, seen.sigs))
    && (!reach.Repeated? ==> (reach.Spiralled? <==> Wandered(pol, calls, seen.burst)))
    && (reach.Halted? ==>
         reach.last < |calls| && StagnatesAt(pol.maxStagnant, before.history, i, calls, reach.last, w.tools))
    && (forall n :: 0 <= n < |calls| && !StopsBy(reach, n) ==>
         !StagnatesAt(pol.maxStagnant, before.history, i, calls, n, w.tools))
    && (reach.Stalled? || reach.Whole? ==> (reach.Stalled? <==> Echoes(pol, seen.observations)))
  }

  /** The turn is cut before the outcome of its n-th call matters, or by it. */
  predicate StopsBy(reach: Reach, n: nat) {
    reach.Repeated? || reach.Spiralled? || (reach.Halted? && reach.last <= n)
  }

  /** So there is only one way for a turn to end. */
  lemma ReachIsDecided(w: World, pol: LoopPolicy, i: nat, content: seq<Part>, advanced: bool, before: Seen, a: Reach,
          b: Reach)
    requires Acts(content, pol)
    requires Decided(w, pol, i, content, advanced, before, a) && Decided(w, pol, i, content, advanced, before, b)
    ensures a == b
  {
    hide Reissued, Wandered, Echoes, StagnatesAt, Acts;
    if a.Halted? {
      assert StopsBy(b, a.last);
    }
    if b.Halted? {
      assert StopsBy(a, b.last);
    }
  }

  /** What a cut turn means for the run. */
  function KillOf(reach: Reach): Option<RunOutcome> {
    match reach
    case Repeated => Some(KilledRepeat)
    case Stalled => Some(KilledRepeat)
    case Spiralled => Some(KilledSpiral)
    case Halted(_) => Some(KilledStagnant)
    case _ => None
  }

  // ---- what a turn writes -------------------------------------------------------------------------------

  function Hints(texts: seq<string>): seq<Message> {
    seq(|texts|, k requires 0 <= k < |texts| => UserMsg(texts[k]))
  }

  /** The hint about a repetition, by how often the turn has now shown the same. */
  function RepeatHint(w: World, count: nat): seq<string> {
    if 3 <= count <= 5 then [w.repeatNudge(count)] else []
  }

  /** The hints after the results of a turn: none when it was cut. */
  ghost predicate Hinted(hints: seq<Message>, w: World, i: nat, reach: Reach, observations: seq<string>) {
    if reach.Whole? then
      exists count: nat :: Tracker.LongestStrings(observations, count)
        && hints == Hints(RepeatHint(w, count) + w.nudges(i))
    else hints == []
  }

  /** What a turn that is dispatched appends: the assistant message, one result per call in order, and the hints. */
  ghost predicate Acted(base: seq<Message>, after: seq<Message>, content: seq<Part>, w: World, e: Scene, reach: Reach,
          observations: seq<string>, rs: seq<Message>, hints: seq<Message>)
  {
    && after == base + [Message(Assistant, content)] + rs + hints
    && |rs| == |ToolCalls(content)|
    && InOrder(rs, ToolCalls(content), 0, Shown(e, ToolCalls(content), if reach.Halted? then reach.last else |rs|))
    && Hinted(hints, w, e.i, reach, observations)
  }

  /** The transcript after a turn, when the model call left base. */
  ghost predicate Wrote(w: World, pol: LoopPolicy, e: Scene, content: seq<Part>, reach: Reach,
          observations: seq<string>, tail: seq<Message>, base: seq<Message>, after: seq<Message>)
  {
    var calls := ToolCalls(content);
    if reach.Failed? || reach.Repeated? || reach.Spiralled? then after == base
    else if Acts(content, pol) then
      exists rs, hints :: Acted(base, after, content, w, e, reach, observations, rs, hints)
    else if Finishes(content, pol) then
      var f := FindCall(calls, pol.finishTool);
      exists rs :: Finished(rs, calls, f, w.finishText(calls[f]), e)
        && after == base + [Message(Assistant, content)] + rs + tail
    else after == base + [Message(Assistant, content)] + tail
  }

  lemma {:induction false} HintsKeep(msgs: seq<Message>, texts: seq<string>)
    requires WellFormed(msgs)
    ensures WellFormed(msgs + Hints(texts))
    decreases |texts|
  {
    if texts == [] {
      assert msgs + Hints([]) == msgs;
    } else {
      UserKeeps(msgs, texts[0]);
      HintsKeep(msgs + [UserMsg(texts[0])], texts[1..]);
      assert msgs + Hints(texts) == msgs + [UserMsg(texts[0])] + Hints(texts[1..]);
    }
  }

  /** At most one user message. */
  predicate Tells(tail: seq<Message>) {
    |tail| <= 1 && forall m :: m in tail ==> m.role.User?
  }

  lemma AfterwordTells(w: World, pol: LoopPolicy, i: nat, content: seq<Part>, last: string, closed: Closed)
    ensures Tells(Afterword(w, pol, i, content, last, closed))
  {
    hide Silent, Advanced;
  }

  /** A turn leaves an acceptable transcript acceptable, if no other call shares the id of the call that finishes it. */
  lemma {:induction false} WroteKeeps(w: World, pol: LoopPolicy, e: Scene, content: seq<Part>, reach: Reach,
          observations: seq<string>, tail: seq<Message>, base: seq<Message>, after: seq<Message>)
    requires Wrote(w, pol, e, content, reach, observations, tail, base, after) && WellFormed(base) && Tells(tail)
    requires !reach.Failed? && pol.finishTool != "" ==> FinishIdUnique(pol.finishTool, ToolCalls(content))
    ensures WellFormed(after)
  {
    hide *;
    WroteMeans(w, pol, e, content, reach, observations, tail, base, after);
    if after != base {
      if Acts(content, pol) {
        var rs, hints :| Acted(base, after, content, w, e, reach, observations, rs, hints);
        ActedKeeps(base, after, content, w, e, reach, observations, rs, hints);
      } else if Finishes(content, pol) {
        var calls := ToolCalls(content);
        var f := FindCall(calls, pol.finishTool);
        var rs :| Finished(rs, calls, f, w.finishText(calls[f]), e)
          && after == base + [Message(Assistant, content)] + rs + tail;
        UniqueHere(pol.finishTool, calls);
        FinishedKeeps(base, tail, content, f, w.finishText(calls[f]), e, rs);
      } else {
        AnswerKeeps(base, tail, content);
      }
    }
  }

  lemma {:induction false} UniqueHere(name: string, calls: seq<Call>)
    requires FinishIdUnique(name, calls)
    ensures var f := FindCall(calls, name); f < |calls| ==> IdBag(calls)[calls[f].id] == 1
  {
  }

  lemma {:induction false} WroteMeans(w: World, pol: LoopPolicy, e: Scene, content: seq<Part>, reach: Reach,
          observations: seq<string>, tail: seq<Message>, base: seq<Message>, after: seq<Message>)
    requires Wrote(w, pol, e, content, reach, observations, tail, base, after)
    ensures after != base ==> !reach.Failed?
    ensures after != base && Acts(content, pol) ==>
              exists rs, hints :: Acted(base, after, content, w, e, reach, observations, rs, hints)
    ensures after != base && !Acts(content, pol) && Finishes(content, pol) ==>
              var calls := ToolCalls(content);
              var f := FindCall(calls, pol.finishTool);
              f < |calls| && exists rs :: Finished(rs, calls, f, w.finishText(calls[f]), e)
                                          && after == base + [Message(Assistant, content)] + rs + tail
    ensures after != base && !Acts(content, pol) && !Finishes(content, pol) ==>
              ToolCalls(content) == [] && after == base + [Message(Assistant, content)] + tail
    ensures Finishes(content, pol) ==>
              FindCall(ToolCalls(content), pol.finishTool) < |ToolCalls(content)| && pol.finishTool != ""
  {
    hide Acted, Finished, FindCall, ToolCalls;
  }

  lemma ActedKeeps(base: seq<Message>, after: seq<Message>, content: seq<Part>, w: World, e: Scene, reach: Reach,
          observations: seq<string>, rs: seq<Message>, hints: seq<Message>)
    requires Acted(base, after, content, w, e, reach, observations, rs, hints) && WellFormed(base)
    ensures WellFormed(after)
  {
    hide WellFormed, InOrder, ToolCalls, Hints, Tracker.LongestStrings, Shown;
    var calls := ToolCalls(content);
    InOrderSettles(rs, calls, Shown(e, ToolCalls(content), if reach.Halted? then reach.last else |rs|));
    assert calls[..|rs|] == calls;
    TurnPaired(base, content, rs);
    if reach.Whole? {
      var count: nat :| Tracker.LongestStrings(observations, count)
        && hints == Hints(RepeatHint(w, count) + w.nudges(e.i));
      HintsKeep(base + [Message(Assistant, content)] + rs, RepeatHint(w, count) + w.nudges(e.i));
    } else {
      assert after == base + [Message(Assistant, content)] + rs;
    }
  }

  lemma TailKeeps(said: seq<Message>, tail: seq<Message>)
    requires Tells(tail) && WellFormed(said)
    ensures WellFormed(said + tail)
  {
    if tail == [] {
      assert said + tail == said;
    } else {
      assert tail[0] in tail && tail == [tail[0]];
      OwedSnoc(CLEAR, said, tail[0]);
    }
  }

  lemma {:induction false} FinishedKeeps(base: seq<Message>, tail: seq<Message>, content: seq<Part>, f: nat,
          text: string, e: Scene, rs: seq<Message>)
    requires WellFormed(base) && f < |ToolCalls(content)| && Tells(tail)
    requires Finished(rs, ToolCalls(content), f, text, e)
    requires IdBag(ToolCalls(content))[ToolCalls(content)[f].id] == 1
    ensures WellFormed(base + [Message(Assistant, content)] + rs + tail)
  {
    hide WellFormed, Finished, Tells, ToolCalls, IdBag;
    FinishTurnPaired(rs, ToolCalls(content), f, text, e);
    TurnPaired(base, content, rs);
    TailKeeps(base + [Message(Assistant, content)] + rs, tail);
  }

  lemma {:induction false} AnswerKeeps(base: seq<Message>, tail: seq<Message>, content: seq<Part>)
    requires WellFormed(base) && ToolCalls(content) == [] && Tells(tail)
    ensures WellFormed(base + [Message(Assistant, content)] + tail)
  {
    hide WellFormed, Tells;
    TurnPaired(base, content, []);
    assert base + [Message(Assistant, content)] + [] == base + [Message(Assistant, content)];
    TailKeeps(base + [Message(Assistant, content)], tail);
  }

  // ---- a run -----------------------------------------------------------------------------------------------

  /**
   What a run starts from: world, policy and gates, the transcript, the repro state, the account, and
   the gates' memory.
  */
  datatype Run = Run(
    w: World, pol: LoopPolicy, gs: GateKeeper, seed: seq<Message>, repro: Repro.State, price: Option<Pricer>,
    charges: seq<Charge>, memory: Memory)

  const ZERO_USAGE := Usage(0, 0, 0, 0, 0, 0.0)

  function Prior(trace: seq<Record>): seq<Record>
    requires trace != []
  {
    trace[..|trace| - 1]
  }

  function Latest(trace: seq<Record>): Record
    requires trace != []
  {
    trace[|trace| - 1]
  }

  /** What the model said in a turn. */
  function ContentAt(w: World, t: Record): seq<Part> {
    match w.provider(t.call).resp
    case Some(resp) => resp.content
    case None => []
  }

  function SeenOf(r: Run, trace: seq<Record>): Seen {
    if trace == [] then Seen([], [], [], [])
    else SeenNext(SeenOf(r, Prior(trace)), r.w, r.pol, |trace|, ContentAt(r.w, Latest(trace)), Latest(trace).reach)
  }

  function ReproOf(r: Run, trace: seq<Record>): Repro.State {
    if trace == [] then r.repro
    else ReproNext(ReproOf(r, Prior(trace)), r.gs.pol.reproFirst, r.w, r.pol, |trace|, ContentAt(r.w, Latest(trace)),
        Latest(trace).reach)
  }

  function ReasoningOf(r: Run, trace: seq<Record>): string {
    if trace == [] then ""
    else ReasoningNext(ReasoningOf(r, Prior(trace)), r.w, r.pol, |trace|, ContentAt(r.w, Latest(trace)),
        Latest(trace).reach)
  }

  /** The usage of all calls that completed and of the last one, its turn, and the last prose. */
  datatype Tally = Tally(usage: Usage, lastUsage: Usage, iterations: nat, text: string)

  function TallyNext(a: Tally, w: World, i: nat, call: nat, failed: bool): Tally {
    var last := w.provider(call);
    match last.resp
    case None => a
    case Some(resp) =>
      var text := Remember(TrimSpace(TextOf(resp.content)), a.text);
      if !failed then Tally(Review.AddUsage(a.usage, resp.usage), resp.usage, i, text)
      else if last.fault.Some? && last.fault.value.contextLength then a
      else a.(text := text)
  }

  function TallyOf(r: Run, trace: seq<Record>): Tally {
    if trace == [] then Tally(ZERO_USAGE, ZERO_USAGE, 0, "")
    else TallyNext(TallyOf(r, Prior(trace)), r.w, |trace|, Latest(trace).call, Latest(trace).reach.Failed?)
  }

  /** The prose that is kept is the last that said something. */
  lemma {:induction false} ProseKept(r: Run, trace: seq<Record>)
    requires trace != [] && !Latest(trace).reach.Failed? && r.w.provider(Latest(trace).call).resp.Some?
    ensures var said := TrimSpace(TextOf(ContentAt(r.w, Latest(trace))));
            && (said != "" ==> TallyOf(r, trace).text == said)
            && (said == "" ==> TallyOf(r, trace).text == TallyOf(r, Prior(trace)).text)
  {
    hide TextOf;
  }

  function CallsAfter(trace: seq<Record>): nat {
    if trace == [] then 0 else Latest(trace).call + 1
  }

  function MessagesAfter(r: Run, trace: seq<Record>): seq<Message> {
    if trace == [] then r.seed else Latest(trace).after
  }

  /** What the gates remember after the run so far. */
  function MemoryAfter(r: Run, trace: seq<Record>): Memory {
    if trace == [] then r.memory else Latest(trace).memory
  }

  /** The charge of a turn's own model call. */
  function TurnCharge(w: World, solver: string, call: nat, failed: bool): seq<Charge> {
    match w.provider(call).resp
    case None => []
    case Some(resp) => if !failed && Reported(resp.usage) then [Charge(solver, resp.usage)] else []
  }

  /** What is on the dollar account when the next turn starts, apart from what gates and tools add. */
  function ChargesAfter(r: Run, trace: seq<Record>): seq<Charge> {
    if r.price.None? then [] else if trace == [] then r.charges
    else Latest(trace).start.charges + TurnCharge(r.w, r.pol.solver, Latest(trace).call, Latest(trace).reach.Failed?)
  }

  function LastStanding(w: World, i: nat): string {
    if i == 0 then "" else if w.standing(i) != "" then w.standing(i) else LastStanding(w, i - 1)
  }

  /** The standing block is shown when it is not empty and has changed. */
  function Block(w: World, i: nat): seq<Message>
    requires i >= 1
  {
    if w.standing(i) != "" && w.standing(i) != LastStanding(w, i - 1) then [UserMsg(w.standing(i))] else []
  }

  /** What the last turn, which did not act, put to the gates. */
  function InputOf(r: Run, trace: seq<Record>): FinishInput
    requires trace != []
  {
    InputAt(r.w, r.pol, |trace|, ContentAt(r.w, Latest(trace)), Tracker.LastFailed(SeenOf(r, trace).history))
  }

  /** Neither cap has been reached. */
  ghost predicate Affordable(pol: LoopPolicy, price: Option<Pricer>, st: Start) {
    && (pol.maxTotalTokens > 0 ==> st.tokens < pol.maxTotalTokens)
    && (pol.maxCost > 0.0 && !pol.allowUnpriced && price.Some? ==> WithinCap(pol.maxCost, price.value, st.charges))
  }

  /** The turn was neither cut, nor did the gates end the run in it. */
  predicate GoesOn(t: Record) {
    t.reach.Whole? && (t.closed.Closed? ==> t.closed.decision.Continue?)
  }

  /** So far no turn was the last one. */
  predicate Uncut(trace: seq<Record>) {
    trace != [] ==> GoesOn(Latest(trace))
  }

  /** t starts where the turns before it ended, below both caps, and its model call is the next one. */
  ghost predicate Starts(r: Run, before: seq<Record>, t: Record) {
    var i, from := |before| + 1, CallsAfter(before);
    && Uncut(before) && !r.w.canceled(i) && !r.w.deadline(i)
    && t.start.tokens == TallyOf(r, before).usage.total && ChargesAfter(r, before) <= t.start.charges
    && Affordable(r.pol, r.price, t.start)
    && t.sent == MessagesAfter(r, before) + Block(r.w, i)
    && t.call + 1 == from + RecoverTurn(r.w.provider, from, t.sent).calls
  }

  /** What the calls of the next turn meet. */
  function SceneOf(r: Run, before: seq<Record>): Scene {
    Scene(|before| + 1, r.w.tools, ReproOf(r, before), r.gs.pol.reproFirst)
  }

  /** The transcript that the model call of t left. */
  function BaseOf(r: Run, before: seq<Record>, t: Record): seq<Message> {
    RecoverTurn(r.w.provider, CallsAfter(before), t.sent).rec.Apply(t.sent)
  }

  /** What turn t did, after those before it: how far it got, and what it wrote. */
  ghost predicate Follows(r: Run, before: seq<Record>, t: Record) {
    var i, content := |before| + 1, ContentAt(r.w, t);
    var seen := SeenNext(SeenOf(r, before), r.w, r.pol, i, content, t.reach);
    && Starts(r, before, t)
    && (t.reach.Failed? <==> r.w.provider(t.call).fault.Some?)
    && (if Acts(content, r.pol) then
          t.reach.Failed?
            || Decided(r.w, r.pol, i, content, Advanced(ReasoningOf(r, before), content), SeenOf(r, before), t.reach)
        else t.reach.Failed? || t.reach.Whole?)
    && Closes(r, before, t)
    && Wrote(r.w, r.pol, SceneOf(r, before), content, t.reach, seen.observations,
             Afterword(r.w, r.pol, i, content, ReasoningOf(r, before), t.closed), BaseOf(r, before, t), t.after)
  }

  /** What turn t asked of the gates. */
  ghost predicate Closes(r: Run, before: seq<Record>, t: Record) {
    var i, content := |before| + 1, ContentAt(r.w, t);
    if t.reach.Failed? then t.closed.NotClosed? && t.memory == MemoryAfter(r, before)
    else
      ClosesAt(r.gs, r.w, r.pol, i, content,
               Tracker.LastFailed(SeenNext(SeenOf(r, before), r.w, r.pol, i, content, t.reach).history),
               ReproNext(ReproOf(r, before), r.gs.pol.reproFirst, r.w, r.pol, i, content, t.reach),
               MemoryAfter(r, before), t.closed, t.memory)
  }

  /** The trace is one of the run: each turn follows those before it. */
  ghost predicate IsTrace(r: Run, trace: seq<Record>) {
    trace == [] || (IsTrace(r, Prior(trace)) && Follows(r, Prior(trace), Latest(trace)))
  }

  lemma {:induction false} TraceSnoc(r: Run, trace: seq<Record>, t: Record)
    ensures Prior(trace + [t]) == trace && Latest(trace + [t]) == t
    ensures IsTrace(r, trace + [t]) <==> IsTrace(r, trace) && Follows(r, trace, t)
  {
    hide Follows;
    assert (trace + [t])[..|trace|] == trace;
  }

  lemma {:induction false} OfSnoc(r: Run, trace: seq<Record>, t: Record)
    ensures var i, content, next := |trace| + 1, ContentAt(r.w, t), trace + [t];
            && SeenOf(r, next) == SeenNext(SeenOf(r, trace), r.w, r.pol, i, content, t.reach)
            && ReproOf(r, next) == ReproNext(ReproOf(r, trace), r.gs.pol.reproFirst, r.w, r.pol, i, content, t.reach)
            && ReasoningOf(r, next) == ReasoningNext(ReasoningOf(r, trace), r.w, r.pol, i, content, t.reach)
            && TallyOf(r, next) == TallyNext(TallyOf(r, trace), r.w, i, t.call, t.reach.Failed?)
            && CallsAfter(next) == t.call + 1 && MessagesAfter(r, next) == t.after && MemoryAfter(r, next) == t.memory
            && ChargesAfter(r, next) ==
               if r.price.None? then [] else t.start.charges + TurnCharge(r.w, r.pol.solver, t.call, t.reach.Failed?)
  {
    hide SeenNext, ReproNext, ReasoningNext, TallyNext, TurnCharge;
    TraceSnoc(r, trace, t);
  }

  /** What holds of the last turn of every trace holds of every turn of every trace. */
  lemma {:induction false} EveryTurn(r: Run, trace: seq<Record>, k: nat)
    requires IsTrace(r, trace) && k < |trace|
    ensures IsTrace(r, trace[..k]) && Follows(r, trace[..k], trace[k])
    ensures Affordable(r.pol, r.price, trace[k].start) && (k + 1 < |trace| ==> GoesOn(trace[k]))
    decreases |trace|
  {
    hide *;
    TraceMeans(r, trace);
    StartMeans(r, Prior(trace), Latest(trace));
    PriorIs(trace);
    if k + 1 < |trace| {
      EveryTurn(r, Prior(trace), k);
      assert Prior(trace)[..k] == trace[..k];
    } else {
      assert trace[..k] == Prior(trace);
    }
  }

  lemma PriorIs(trace: seq<Record>)
    requires trace != []
    ensures Prior(trace) == trace[..|trace| - 1] && Latest(trace) == trace[|trace| - 1]
  {
  }

  lemma StartMeans(r: Run, before: seq<Record>, t: Record)
    requires Follows(r, before, t)
    ensures Affordable(r.pol, r.price, t.start) && (before != [] ==> GoesOn(before[|before| - 1]))
  {
    hide Wrote, Closes, Decided, SeenNext, Affordable, Acts, ContentAt, Advanced, SeenOf, ReasoningOf, BaseOf,
      RecoverTurn, CallsAfter, TallyOf, ChargesAfter, MessagesAfter, Block;
  }

  // ---- what holds of every run ----------------------------------------------------------------------------

  /** In every turn that finishes, the call that does has an id of its own. */
  predicate OwnIds(r: Run, trace: seq<Record>) {
    r.pol.finishTool != "" ==>
      forall t :: t in trace && !t.reach.Failed? ==> FinishIdUnique(r.pol.finishTool, ToolCalls(ContentAt(r.w, t)))
  }

  /** The transcript stays one a provider accepts. */
  lemma {:induction false} TranscriptAccepted(r: Run, trace: seq<Record>)
    requires IsTrace(r, trace) && WellFormed(r.seed) && OwnIds(r, trace)
    ensures WellFormed(MessagesAfter(r, trace))
    decreases |trace|
  {
    if trace != [] {
      hide WellFormed, Follows, FinishIdUnique, ToolCalls, ContentAt;
      TranscriptAccepted(r, Prior(trace));
      TurnAccepted(r, Prior(trace), Latest(trace));
    }
  }

  lemma TurnAccepted(r: Run, before: seq<Record>, t: Record)
    requires Follows(r, before, t) && WellFormed(MessagesAfter(r, before))
    requires !t.reach.Failed? && r.pol.finishTool != "" ==>
               FinishIdUnique(r.pol.finishTool, ToolCalls(ContentAt(r.w, t)))
    ensures WellFormed(t.after)
  {
    hide WellFormed, Wrote, Closes, Afterword, Decided, FinishIdUnique, ToolCalls, ContentAt, SeenOf, SeenNext,
      RecoverTurn, Recover, TallyOf, ReasoningOf, MessagesAfter, Affordable;
    var i, content := |before| + 1, ContentAt(r.w, t);
    if Block(r.w, i) == [] {
      assert t.sent == MessagesAfter(r, before);
    } else {
      UserKeeps(MessagesAfter(r, before), r.w.standing(i));
    }
    RecoveryKeepsPairing(RecoverTurn(r.w.provider, CallsAfter(before), t.sent).rec, t.sent);
    var seen := SeenNext(SeenOf(r, before), r.w, r.pol, i, content, t.reach);
    AfterwordTells(r.w, r.pol, i, content, ReasoningOf(r, before), t.closed);
    WroteKeeps(r.w, r.pol, SceneOf(r, before), content, t.reach, seen.observations,
               Afterword(r.w, r.pol, i, content, ReasoningOf(r, before), t.closed), BaseOf(r, before, t), t.after);
  }

  /** Turns, calls and tokens are bounded: the last completed call is the only one that can go over the cap. */
  ghost predicate Bounded(r: Run, trace: seq<Record>) {
    var a := TallyOf(r, trace);
    && CallsAfter(trace) <= 15 * |trace|
    && a.iterations <= |trace| <= a.iterations + 1 && (Uncut(trace) ==> a.iterations == |trace|)
    && (r.pol.maxTotalTokens > 0 ==> a.usage.total < r.pol.maxTotalTokens + a.lastUsage.total)
  }

  lemma {:induction false} WithinBounds(r: Run, trace: seq<Record>)
    requires IsTrace(r, trace) && Answers(r.w.provider)
    ensures Bounded(r, trace)
    decreases |trace|
  {
    hide *;
    if trace == [] {
      NothingSpent(r);
    } else {
      TraceMeans(r, trace);
      WithinBounds(r, Prior(trace));
      TurnInBounds(r, Prior(trace), Latest(trace));
    }
  }

  lemma NothingSpent(r: Run)
    ensures Bounded(r, [])
  {
  }

  lemma TurnInBounds(r: Run, before: seq<Record>, t: Record)
    requires Follows(r, before, t) && Bounded(r, before) && Answers(r.w.provider)
    ensures Bounded(r, before + [t])
  {
    hide Wrote, Closes, Decided, SeenOf, SeenNext, RecoverTurn, ReasoningOf, ReproOf, TallyOf, MessagesAfter, WithinCap,
      ToolCalls, Acts, TextOf, ContentAt, Block, CallsAfter, ChargesAfter;
    OfSnoc(r, before, t);
    TraceSnoc(r, before, t);
    TurnBounded(r.w.provider, CallsAfter(before), t.sent);
  }

  /** A turn is cut only for what the run's own history shows, and one that is not cut gave no cause. */
  lemma {:induction false} KilledForCause(r: Run, trace: seq<Record>)
    requires IsTrace(r, trace) && trace != [] && !Latest(trace).reach.Failed?
             && Acts(ContentAt(r.w, Latest(trace)), r.pol)
    ensures var seen, content := SeenOf(r, trace), ContentAt(r.w, Latest(trace));
            var repeated := Reissued(r.pol, Advanced(ReasoningOf(r, Prior(trace)), content), seen.sigs);
            match Latest(trace).reach
            case Repeated => repeated
            case Spiralled => !repeated && Wandered(r.pol, ToolCalls(content), seen.burst)
            case Halted(_) => !repeated && !Wandered(r.pol, ToolCalls(content), seen.burst)
              && Tracker.Stagnated(seen.history, r.pol.maxStagnant)
            case Stalled => !repeated && !Wandered(r.pol, ToolCalls(content), seen.burst)
              && Echoes(r.pol, seen.observations)
            case _ => !repeated && !Wandered(r.pol, ToolCalls(content), seen.burst) && !Echoes(r.pol, seen.observations)
  {
    hide *;
    var before, t, content := Prior(trace), Latest(trace), ContentAt(r.w, Latest(trace));
    TraceMeans(r, trace);
    FollowsMeans(r, before, t);
    DecidedMeans(r.w, r.pol, |trace|, content, Advanced(ReasoningOf(r, before), content), SeenOf(r, before), t.reach);
  }

  lemma {:induction false} TraceMeans(r: Run, trace: seq<Record>)
    requires IsTrace(r, trace) && trace != []
    ensures IsTrace(r, Prior(trace)) && Follows(r, Prior(trace), Latest(trace))
    ensures |Prior(trace)| + 1 == |trace| && Prior(trace) + [Latest(trace)] == trace
    ensures var t := Latest(trace);
            SeenOf(r, trace) == SeenNext(SeenOf(r, Prior(trace)), r.w, r.pol, |trace|, ContentAt(r.w, t), t.reach)
  {
    hide Follows, SeenNext, ContentAt;
  }

  lemma {:induction false} FollowsMeans(r: Run, before: seq<Record>, t: Record)
    requires Follows(r, before, t) && Acts(ContentAt(r.w, t), r.pol) && !t.reach.Failed?
    ensures var content := ContentAt(r.w, t);
            Decided(r.w, r.pol, |before| + 1, content, Advanced(ReasoningOf(r, before), content),
                       SeenOf(r, before), t.reach)
  {
    hide Wrote, Closes, Decided, SeenNext, Starts, Acts, ContentAt, Advanced, SeenOf, ReasoningOf, BaseOf;
  }

  lemma {:induction false} DecidedMeans(w: World, pol: LoopPolicy, i: nat, content: seq<Part>, advanced: bool,
          before: Seen, reach: Reach)
    requires Decided(w, pol, i, content, advanced, before, reach) && Acts(content, pol)
    ensures var seen := SeenNext(before, w, pol, i, content, reach);
            var repeated := Reissued(pol, advanced, seen.sigs);
            match reach
            case Repeated => repeated
            case Spiralled => !repeated && Wandered(pol, ToolCalls(content), seen.burst)
            case Halted(_) => !repeated && !Wandered(pol, ToolCalls(content), seen.burst)
              && Tracker.Stagnated(seen.history, pol.maxStagnant)
            case Stalled => !repeated && !Wandered(pol, ToolCalls(content), seen.burst)
              && Echoes(pol, seen.observations)
            case _ => !repeated && !Wandered(pol, ToolCalls(content), seen.burst) && !Echoes(pol, seen.observations)
  {
    hide Reissued, Wandered, Echoes, StagnatesAt, Acts, Tracker.Stagnated, ActEvents, ToolCalls;
    if reach.Halted? {
      HaltedHistory(pol.maxStagnant, before.history, i, ToolCalls(content), reach.last, w.tools);
    }
  }

  /** What is locked when the run starts, or gets locked in it, stays as it is. */
  lemma {:induction false} LockKept(r: Run, trace: seq<Record>)
    ensures Repro.StaysLocked(r.repro, ReproOf(r, trace))
    ensures trace != [] ==> Repro.StaysLocked(ReproOf(r, Prior(trace)), ReproOf(r, trace))
    decreases |trace|
  {
    if trace != [] {
      hide ReproNext, ContentAt;
      LockKept(r, Prior(trace));
      StepKeepsLock(ReproOf(r, Prior(trace)), r.gs.pol.reproFirst, r.w, r.pol, |trace|, ContentAt(r.w, Latest(trace)),
          Latest(trace).reach);
    }
  }

  lemma StepKeepsLock(s: Repro.State, reproFirst: bool, w: World, pol: LoopPolicy, i: nat, content: seq<Part>,
          reach: Reach)
    ensures Repro.StaysLocked(s, ReproNext(s, reproFirst, w, pol, i, content, reach))
  {
    hide ReproActs, ReproOthers, ToolCalls;
    var calls := ToolCalls(content);
    ActsCore(s, reproFirst, i, calls, DispatchedBy(reach, calls), w.tools);
    if Finishes(content, pol) {
      OthersCore(s, reproFirst, i, calls, |calls|, calls[FindCall(calls, pol.finishTool)].id, w.tools);
    }
  }
}
