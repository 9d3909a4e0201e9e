/**
 A session: a conversation that is carried from one run to the next.  What a run leaves is committed
 unless the caller's context has ended.
*/
module Sessions {
  import opened Transcript
  import opened Generate
  import opened Gates
  import opened NativeDispatch
  import opened NativeTrace
  import opened NativeLoop

  /** The message that opens a run; only the first one of a conversation is marked as such. */
  function Opening(history: seq<Message>, task: string, images: seq<Part>, env: string): (m: Message)
    ensures m.role.User? && m.parts != [] && m.parts[1..] == images
    ensures m.parts[0] == Text(if history != [] then task else "TASK: " + task + env)
  {
    Message(User, [Text(if history == [] then "TASK: " + task + env else task)] + images)
  }

  class Session {
    var messages: seq<Message>

    constructor (history: seq<Message>)
      ensures messages == history
    {
      messages := history;
    }

    /**
     One user turn.  refused stands for a run that stops before the loop and has no transcript; done
     for a context that has ended by the time the run is back.
    */
    method SendParts(task: string, images: seq<Part>, env: string, refused: bool, done: bool, pol: LoopPolicy, w: World,
            gs: GateKeeper)
      returns (res: Option<RunResult>, ghost trace: seq<Record>, ghost v: Result)
      requires Ready(gs) && Answers(w.provider) && pol.frontierCap >= 1
      modifies this, gs, gs.review, gs.repro, gs.spend
      ensures res.None? <==> refused
      ensures messages == if done || res.None? || res.value.messages == [] then old(messages) else res.value.messages
      ensures var r := old(RunFrom(messages, Opening(messages, task, images, env), pol, w, gs));
              && (!refused ==> Ended(gs, r, trace, v, res.value))
              && (WellFormed(old(messages)) && OwnIds(r, trace) ==> WellFormed(messages))
    {
      hide *;
      var opening := Opening(messages, task, images, env);
      ghost var r := RunFrom(messages, opening, pol, w, gs);
      trace, v := [], Result(Canceled, "", None);
      if refused {
        return None, trace, v;
      }
      SeedAccepted(messages, opening, pol, w, gs);
      var run;
      run, trace, v := RunNative(messages, opening, pol, w, gs);
      EndedMeans(gs, r, trace, v, run);
      if !done && |run.messages| > 0 {
        messages := run.messages;
      }
      return Some(run), trace, v;
    }

    /** Starts the conversation anew. */
    method Reset()
      modifies this
      ensures messages == [] && WellFormed(messages)
    {
      messages := [];
    }
  }

  lemma SeedAccepted(history: seq<Message>, opening: Message, pol: LoopPolicy, w: World, gs: GateKeeper)
    requires opening.role.User?
    ensures WellFormed(history) ==> WellFormed(RunFrom(history, opening, pol, w, gs).seed)
  {
    OwedSnoc(CLEAR, history, opening);
  }

  lemma EndedMeans(gs: GateKeeper, r: Run, trace: seq<Record>, v: Result, res: RunResult)
    requires Ended(gs, r, trace, v, res)
    ensures WellFormed(r.seed) && OwnIds(r, trace) ==> WellFormed(res.messages)
  {
    hide WellFormed, OwnIds, IsTrace, Verdict, Bounded;
  }
}
