/**
 One model call as the loops see it: transient faults are re-sent, a rejected reasoning replay is
 scrubbed, and an overflow of the model's window compacts the transcript.  The provider is an
 arbitrary function from the number of the call to what that call gave.
*/
module Generate {
  import opened Transcript
  import opened Eviction

  datatype Option<+T> = None | Some(value: T)

  datatype Usage = Usage(prompt: int, completion: int, total: int, cached: int, reasoning: int, cost: real)

  datatype Response = Response(content: seq<Part>, usage: Usage)

  /** The classification of a provider error that the harness branches on. */
  datatype Fault = Fault(encryptedReplay: bool, contextLength: bool, retryable: bool)

  /** What one call gave; interrupted says whether the wait for a re-send would have been cut short. */
  datatype Attempt = Attempt(resp: Option<Response>, fault: Option<Fault>, interrupted: bool)

  type Provider = nat -> Attempt

  const TRANSIENT_MAX_RETRIES: nat := 2
  const EVICTION_MAX_RETRIES: nat := 3

  // ---- re-sending ----------------------------------------------------------------------------

  /** The n-th attempt of a call (from 0) is the last one. */
  predicate Final(a: Attempt, n: nat) {
    a.fault.None? || a.fault.value.encryptedReplay || !a.fault.value.retryable || n >= TRANSIENT_MAX_RETRIES
      || a.interrupted
  }

  /** How often a call is sent, counting from its n-th attempt. */
  function SendsFrom(provider: Provider, from: nat, n: nat): (k: nat)
    requires n <= TRANSIENT_MAX_RETRIES
    ensures n < k <= TRANSIENT_MAX_RETRIES + 1
    decreases TRANSIENT_MAX_RETRIES - n
  {
    if Final(provider(from + n), n) then n + 1 else SendsFrom(provider, from, n + 1)
  }

  method GenerateWithRetry(provider: Provider, from: nat) returns (last: Attempt, calls: nat)
    ensures 1 <= calls <= TRANSIENT_MAX_RETRIES + 1
    ensures last == provider(from + calls - 1) && Final(last, calls - 1)
    ensures forall n :: from <= n < from + calls - 1 ==> !Final(provider(n), n - from)
    ensures calls == SendsFrom(provider, from, 0)
  {
    var attempt: nat := 0;
    while true
      invariant attempt <= TRANSIENT_MAX_RETRIES
      invariant forall n :: from <= n < from + attempt ==> !Final(provider(n), n - from)
      invariant SendsFrom(provider, from, attempt) == SendsFrom(provider, from, 0)
      decreases TRANSIENT_MAX_RETRIES - attempt
    {
      var a := provider(from + attempt);
      if a.fault.None? || a.fault.value.encryptedReplay || !a.fault.value.retryable
        || attempt >= TRANSIENT_MAX_RETRIES {
        return a, attempt + 1;
      }
      if a.interrupted {
        return a, attempt + 1;
      }
      attempt := attempt + 1;
    }
  }

  // ---- scrubbing -------------------------------------------------------------------------------

  function WithoutReasoning(parts: seq<Part>): seq<Part> {
    if parts == [] then []
    else (if parts[0].Reasoning? then [] else [parts[0]]) + WithoutReasoning(parts[1..])
  }

  function ScrubMsg(m: Message): Message {
    if m.role.Assistant? then Message(m.role, WithoutReasoning(m.parts)) else m
  }

  /** The transcript without the opaque reasoning of the assistant. */
  function Scrub(msgs: seq<Message>): (out: seq<Message>)
    ensures |out| == |msgs|
    ensures forall i :: 0 <= i < |msgs| ==> out[i] == ScrubMsg(msgs[i])
  {
    seq(|msgs|, i requires 0 <= i < |msgs| => ScrubMsg(msgs[i]))
  }

  lemma {:induction false} ScrubKeepsCalls(parts: seq<Part>)
    ensures ToolCalls(WithoutReasoning(parts)) == ToolCalls(parts)
  {
    if parts != [] {
      ScrubKeepsCalls(parts[1..]);
      var rest := WithoutReasoning(parts[1..]);
      assert !parts[0].Reasoning? ==> ([parts[0]] + rest)[1..] == rest;
      assert parts[0].Reasoning? ==> [] + rest == rest;
    }
  }

  /** Scrubbing takes nothing from the account of open calls. */
  lemma {:induction false} ScrubKeepsAccount(a: Account, s: seq<Message>)
    ensures Owed(a, Scrub(s)) == Owed(a, s)
    decreases |s|
  {
    if s != [] {
      ScrubKeepsCalls(s[0].parts);
      assert Settle(a, ScrubMsg(s[0])) == Settle(a, s[0]);
      assert Scrub(s)[1..] == Scrub(s[1..]);
      ScrubKeepsAccount(Settle(a, s[0]), s[1..]);
    }
  }

  lemma {:induction false} ScrubKeepsTurns(msgs: seq<Message>, i: nat)
    requires i <= |msgs|
    ensures NextTurn(Scrub(msgs), i) == NextTurn(msgs, i)
    decreases |msgs| - i
  {
    if i < |msgs| && !msgs[i].role.Assistant? {
      ScrubKeepsTurns(msgs, i + 1);
    }
  }

  lemma {:induction false} ScrubKeepsTurnCount(t: seq<Message>)
    ensures TurnsIn(Scrub(t)) == TurnsIn(t)
  {
    if t != [] {
      assert Scrub(t)[1..] == Scrub(t[1..]);
      ScrubKeepsTurnCount(t[1..]);
    }
  }

  lemma {:induction false} DropNothing(t: seq<Message>, k: nat)
    requires k == 0 || t == []
    ensures DropTurns(t, k) == t
  {
  }

  lemma ScrubSlice(t: seq<Message>, b: nat)
    requires b <= |t|
    ensures |Scrub(t)| == |t| && Scrub(t)[b..] == Scrub(t[b..])
  {
  }

  lemma {:induction false} ScrubDropTurns(t: seq<Message>, k: nat)
    ensures DropTurns(Scrub(t), k) == Scrub(DropTurns(t, k))
    decreases k
  {
    hide *;
    ScrubSlice(t, 0);
    if k == 0 || t == [] {
      DropNothing(t, k);
      DropNothing(Scrub(t), k);
    } else {
      ScrubKeepsTurns(t, 1);
      var b := NextTurn(t, 1);
      DropMore(t, k);
      ScrubSlice(t, b);
      DropMore(Scrub(t), k);
      ScrubDropTurns(t[b..], k - 1);
    }
  }

  lemma ScrubParts(msgs: seq<Message>)
    ensures Preamble(Scrub(msgs)) == Scrub(Preamble(msgs)) && TurnsOf(Scrub(msgs)) == Scrub(TurnsOf(msgs))
    ensures Removable(Scrub(msgs)) == Removable(msgs)
  {
    if msgs != [] {
      ScrubKeepsTurns(msgs, 1);
      ScrubKeepsTurnCount(TurnsOf(msgs));
      assert TurnsOf(Scrub(msgs)) == Scrub(TurnsOf(msgs));
    }
  }

  /** Scrubbing and compacting commute. */
  lemma ScrubCompact(msgs: seq<Message>)
    ensures Compact(Scrub(msgs)) == Scrub(Compact(msgs))
  {
    hide Preamble, TurnsOf, Removable, DropTurns, Scrub;
    var k := (Removable(msgs) + 1) / 2;
    ScrubParts(msgs);
    ScrubDropTurns(TurnsOf(msgs), k);
    ScrubConcat(Preamble(msgs), DropTurns(TurnsOf(msgs), k));
  }

  lemma ScrubConcat(p: seq<Message>, s: seq<Message>)
    ensures Scrub(p + s) == Scrub(p) + Scrub(s)
  {
  }

  lemma {:induction false} ScrubCompacted(msgs: seq<Message>, k: nat)
    ensures Compacted(Scrub(msgs), k) == Scrub(Compacted(msgs, k))
    decreases k
  {
    hide Compact, Scrub;
    if k > 0 {
      ScrubCompacted(msgs, k - 1);
      ScrubCompact(Compacted(msgs, k - 1));
    }
  }

  /** Removes the reasoning of every assistant message and counts what went. */
  method DropReplayReasoning(msgs: seq<Message>) returns (out: seq<Message>, dropped: nat)
    ensures out == Scrub(msgs)
    ensures dropped == 0 <==> out == msgs
  {
    out := msgs;
    dropped := 0;
    var i := 0;
    while i < |msgs|
      invariant i <= |msgs| == |out| && out[i..] == msgs[i..]
      invariant out[..i] == Scrub(msgs)[..i]
      invariant dropped == 0 ==> out == msgs
      invariant dropped > 0 ==> exists j :: 0 <= j < i && |out[j].parts| < |msgs[j].parts|
    {
      if msgs[i].role.Assistant? {
        var parts, gone := KeepParts(msgs[i].parts);
        dropped := dropped + gone;
        if |parts| != |msgs[i].parts| {
          out := out[i := Message(msgs[i].role, parts)];
        }
      }
      i := i + 1;
    }
  }

  method KeepParts(parts: seq<Part>) returns (kept: seq<Part>, gone: nat)
    ensures kept == WithoutReasoning(parts) && |kept| + gone == |parts|
    ensures |kept| == |parts| ==> kept == parts
  {
    kept, gone := [], 0;
    var j := 0;
    while j < |parts|
      invariant j <= |parts| && kept + WithoutReasoning(parts[j..]) == WithoutReasoning(parts)
      invariant |kept| + gone == j && (gone == 0 ==> kept == parts[..j])
    {
      if parts[j].Reasoning? {
        gone := gone + 1;
      } else {
        kept := kept + [parts[j]];
      }
      j := j + 1;
    }
  }

  // ---- the call with its recoveries --------------------------------------------------------------

  /** What a call did to the transcript: how often it was compacted, and whether it was scrubbed. */
  datatype Recovery = Recovery(evictions: nat, scrubbed: bool) {
    function Attempts(): nat { evictions + (if scrubbed then 1 else 0) + 1 }
    function Apply(msgs: seq<Message>): seq<Message> {
      Compacted(if scrubbed then Scrub(msgs) else msgs, evictions)
    }
  }

  /** Recoveries keep the pairing of calls and results, and halve the removable turns each time. */
  lemma RecoveryKeepsPairing(r: Recovery, msgs: seq<Message>)
    ensures WellFormed(msgs) ==> WellFormed(r.Apply(msgs))
    ensures Removable(r.Apply(msgs)) == Removable(msgs) / Pow2(r.evictions)
  {
    ScrubKeepsAccount(CLEAR, msgs);
    CompactedLeaves(msgs, r.evictions);
    HalvedIsDivision(Removable(msgs), r.evictions);
    if r.scrubbed {
      CompactedLeaves(Scrub(msgs), r.evictions);
      ScrubParts(msgs);
    }
  }

  /** How many calls a turn takes and what it does to the transcript, when rec and the calls so far are behind it. */
  datatype Recovered = Recovered(calls: nat, rec: Recovery)

  function Recover(provider: Provider, from: nat, msgs0: seq<Message>, rec: Recovery, used: nat): Recovered
    requires rec.evictions <= EVICTION_MAX_RETRIES
    decreases EVICTION_MAX_RETRIES - rec.evictions, !rec.scrubbed
  {
    var msgs := rec.Apply(msgs0);
    var calls := used + SendsFrom(provider, from + used, 0);
    var fault := provider(from + calls - 1).fault;
    if fault.Some? && fault.value.encryptedReplay && !rec.scrubbed && Scrub(msgs) != msgs then
      Recover(provider, from, msgs0, Recovery(rec.evictions, true), calls)
    else if fault.None? || !fault.value.contextLength || rec.Attempts() > EVICTION_MAX_RETRIES
      || Removable(msgs) == 0 then
      Recovered(calls, rec)
    else
      Recover(provider, from, msgs0, Recovery(rec.evictions + 1, rec.scrubbed), calls)
  }

  /** The recoveries of a turn from its start. */
  function RecoverTurn(provider: Provider, from: nat, msgs: seq<Message>): Recovered {
    Recover(provider, from, msgs, Recovery(0, false), 0)
  }

  method GenerateWithEviction(provider: Provider, from: nat, msgs0: seq<Message>)
    returns (resp: Option<Response>, msgs: seq<Message>, fault: Option<Fault>, calls: nat, rec: Recovery)
    ensures msgs == rec.Apply(msgs0) && rec.evictions <= EVICTION_MAX_RETRIES
    ensures rec.Attempts() <= calls <= 3 * rec.Attempts() && rec.Attempts() <= 5 && 1 <= calls <= 15
    ensures Recovered(calls, rec) == RecoverTurn(provider, from, msgs0)
    ensures fault == provider(from + calls - 1).fault
    ensures fault.None? ==> resp == provider(from + calls - 1).resp
    ensures fault.Some? && fault.value.contextLength ==>
              resp.None? && (rec.Attempts() > EVICTION_MAX_RETRIES || Removable(msgs) == 0)
    ensures fault.Some? && !fault.value.contextLength ==> resp == provider(from + calls - 1).resp
    ensures fault.Some? && fault.value.encryptedReplay ==> rec.scrubbed || Scrub(msgs) == msgs
  {
    hide *;
    msgs, calls, rec := msgs0, 0, Recovery(0, false);
    var attempt: nat := 0;
    AppliedNothing(provider, from, msgs0);
    while true
      invariant msgs == rec.Apply(msgs0) && rec.evictions <= EVICTION_MAX_RETRIES
      invariant attempt == rec.Attempts() - 1 && attempt <= calls <= 3 * attempt
      invariant Recover(provider, from, msgs0, rec, calls) == RecoverTurn(provider, from, msgs0)
      decreases EVICTION_MAX_RETRIES - rec.evictions, !rec.scrubbed
    {
      Limits(rec);
      Recovers(provider, from, msgs0, rec, calls);
      var last, n := GenerateWithRetry(provider, from + calls);
      calls := calls + n;
      fault, resp := last.fault, last.resp;
      if fault.Some? && fault.value.encryptedReplay && !rec.scrubbed {
        var scrubbed, dropped := DropReplayReasoning(msgs);
        if dropped > 0 {
          Applied(rec, msgs0);
          msgs, rec := scrubbed, Recovery(rec.evictions, true);
          attempt := attempt + 1;
          continue;
        }
      }
      if fault.None? || !fault.value.contextLength {
        return;
      }
      if attempt >= EVICTION_MAX_RETRIES {
        resp := None;
        return;
      }
      var shrunk, evicted := EvictOldestTurns(msgs);
      if evicted == 0 {
        resp := None;
        return;
      }
      Applied(rec, msgs0);
      msgs, rec := shrunk, Recovery(rec.evictions + 1, rec.scrubbed);
      attempt := attempt + 1;
    }
  }

  lemma {:induction false} AppliedNothing(provider: Provider, from: nat, msgs: seq<Message>)
    ensures Recovery(0, false).Apply(msgs) == msgs && Recovery(0, false).Attempts() == 1
    ensures Recover(provider, from, msgs, Recovery(0, false), 0) == RecoverTurn(provider, from, msgs)
  {
    hide Recover, Compact;
  }

  lemma Limits(rec: Recovery)
    ensures rec.Attempts() == rec.evictions + (if rec.scrubbed then 1 else 0) + 1
    ensures Recovery(rec.evictions, true).Attempts() == rec.evictions + 2
    ensures Recovery(rec.evictions + 1, rec.scrubbed).Attempts() == rec.Attempts() + 1
    ensures EVICTION_MAX_RETRIES == 3 && TRANSIENT_MAX_RETRIES == 2
  {
  }

  /** One more recovery is one more step on the transcript. */
  lemma Applied(rec: Recovery, msgs0: seq<Message>)
    ensures !rec.scrubbed ==> Recovery(rec.evictions, true).Apply(msgs0) == Scrub(rec.Apply(msgs0))
    ensures Recovery(rec.evictions + 1, rec.scrubbed).Apply(msgs0) == Compact(rec.Apply(msgs0))
  {
    hide Scrub, Compact;
    if !rec.scrubbed {
      ScrubCompacted(msgs0, rec.evictions);
    }
  }

  /** What one attempt leads to. */
  lemma Recovers(provider: Provider, from: nat, msgs0: seq<Message>, rec: Recovery, used: nat)
    requires rec.evictions <= EVICTION_MAX_RETRIES
    ensures var msgs := rec.Apply(msgs0);
            var calls := used + SendsFrom(provider, from + used, 0);
            var fault := provider(from + calls - 1).fault;
            Recover(provider, from, msgs0, rec, used) ==
            if fault.Some? && fault.value.encryptedReplay && !rec.scrubbed && Scrub(msgs) != msgs then
              Recover(provider, from, msgs0, Recovery(rec.evictions, true), calls)
            else if fault.None? || !fault.value.contextLength || rec.Attempts() > EVICTION_MAX_RETRIES
              || Removable(msgs) == 0 then
              Recovered(calls, rec)
            else
              Recover(provider, from, msgs0, Recovery(rec.evictions + 1, rec.scrubbed), calls)
  {
    hide Scrub, Compact, Removable, SendsFrom;
  }

  /** However it is recovered, a turn takes at most 15 calls, and the last of them decides. */
  lemma {:induction false} RecoverBounded(provider: Provider, from: nat, msgs0: seq<Message>, rec: Recovery, used: nat)
    requires rec.evictions <= EVICTION_MAX_RETRIES && rec.Attempts() <= 5
    ensures used < Recover(provider, from, msgs0, rec, used).calls <= used + 3 * (6 - rec.Attempts())
    decreases EVICTION_MAX_RETRIES - rec.evictions, !rec.scrubbed
  {
    hide *;
    Limits(rec);
    Recovers(provider, from, msgs0, rec, used);
    var calls := used + SendsFrom(provider, from + used, 0);
    var fault := provider(from + calls - 1).fault;
    if fault.Some? && fault.value.encryptedReplay && !rec.scrubbed && Scrub(rec.Apply(msgs0)) != rec.Apply(msgs0) {
      RecoverBounded(provider, from, msgs0, Recovery(rec.evictions, true), calls);
    } else if fault.Some? && fault.value.contextLength && rec.Attempts() <= EVICTION_MAX_RETRIES
      && Removable(rec.Apply(msgs0)) != 0 {
      RecoverBounded(provider, from, msgs0, Recovery(rec.evictions + 1, rec.scrubbed), calls);
    }
  }

  predicate RefusedReplay(provider: Provider, k: nat) {
    provider(k).fault.Some? && provider(k).fault.value.encryptedReplay
  }

  predicate Overflowed(provider: Provider, k: nat) {
    provider(k).fault.Some? && provider(k).fault.value.contextLength
  }

  /** Only a send that failed is repeated. */
  lemma {:induction false} SendsFail(provider: Provider, from: nat, n: nat)
    requires n <= TRANSIENT_MAX_RETRIES
    ensures forall k: nat :: from + n <= k < from + SendsFrom(provider, from, n) - 1 ==> provider(k).fault.Some?
    decreases TRANSIENT_MAX_RETRIES - n
  {
    if !Final(provider(from + n), n) {
      SendsFail(provider, from, n + 1);
    }
  }

  /**
   All calls of a turn but the last one failed.  A transcript is scrubbed only after a call whose replay
   was refused, and compacted only after a call that overflowed.  The turn is not given up over a refused
   replay while there is reasoning to scrub, nor over an overflow while there are retries and removable turns.
  */
  lemma {:induction false} RecoveredForCause(provider: Provider, from: nat, msgs0: seq<Message>, rec: Recovery,
          used: nat)
    requires rec.evictions <= EVICTION_MAX_RETRIES && rec.Attempts() <= 5
    ensures var r := Recover(provider, from, msgs0, rec, used);
            && used < r.calls
            && (forall k: nat :: from + used <= k < from + r.calls - 1 ==> provider(k).fault.Some?)
            && (rec.scrubbed ==> r.rec.scrubbed) && rec.evictions <= r.rec.evictions
            && (!rec.scrubbed && r.rec.scrubbed ==>
                 exists k: nat :: from + used <= k < from + r.calls - 1 && RefusedReplay(provider, k))
            && (rec.evictions < r.rec.evictions ==>
                 exists k: nat :: from + used <= k < from + r.calls - 1 && Overflowed(provider, k))
            && (RefusedReplay(provider, from + r.calls - 1) ==>
                 r.rec.scrubbed || Scrub(r.rec.Apply(msgs0)) == r.rec.Apply(msgs0))
            && (Overflowed(provider, from + r.calls - 1) ==>
                 r.rec.Attempts() > EVICTION_MAX_RETRIES || Removable(r.rec.Apply(msgs0)) == 0)
    decreases EVICTION_MAX_RETRIES - rec.evictions, !rec.scrubbed
  {
    hide Recover, Scrub, Compact, Compacted, Removable, SendsFrom, rec.Apply;
    Limits(rec);
    Recovers(provider, from, msgs0, rec, used);
    RecoverBounded(provider, from, msgs0, rec, used);
    SendsFail(provider, from + used, 0);
    var calls := used + SendsFrom(provider, from + used, 0);
    var last := calls - 1;
    if RefusedReplay(provider, from + last) && !rec.scrubbed && Scrub(rec.Apply(msgs0)) != rec.Apply(msgs0) {
      RecoveredForCause(provider, from, msgs0, Recovery(rec.evictions, true), calls);
      assert RefusedReplay(provider, from + last);
    } else if Overflowed(provider, from + last) && rec.Attempts() <= EVICTION_MAX_RETRIES
      && Removable(rec.Apply(msgs0)) != 0 {
      RecoveredForCause(provider, from, msgs0, Recovery(rec.evictions + 1, rec.scrubbed), calls);
      assert Overflowed(provider, from + last);
    }
  }

  lemma TurnBounded(provider: Provider, from: nat, msgs: seq<Message>)
    ensures 1 <= RecoverTurn(provider, from, msgs).calls <= 15
  {
    hide *;
    AppliedNothing(provider, from, msgs);
    Limits(Recovery(0, false));
    RecoverBounded(provider, from, msgs, Recovery(0, false), 0);
  }
}
