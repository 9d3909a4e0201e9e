/**
 Compaction of a transcript that overflowed the model's window: whole turns are dropped, oldest
 first.  A turn is an assistant message with everything up to the next one; the messages before
 the opening message and the newest turn always stay.
*/
module Eviction {
  import opened Transcript

  // ---- turns ---------------------------------------------------------------------------------

  /** The first assistant message at or after i, or the end. */
  function NextTurn(msgs: seq<Message>, i: nat): (j: nat)
    requires i <= |msgs|
    ensures i <= j <= |msgs|
    ensures j < |msgs| ==> msgs[j].role.Assistant?
    ensures forall k :: i <= k < j ==> !msgs[k].role.Assistant?
    decreases |msgs| - i
  {
    if i == |msgs| || msgs[i].role.Assistant? then i else NextTurn(msgs, i + 1)
  }

  /** How many turns start in t. */
  function TurnsIn(t: seq<Message>): nat {
    if t == [] then 0 else (if t[0].role.Assistant? then 1 else 0) + TurnsIn(t[1..])
  }

  /** The opening message and whatever precedes the first turn.  The very first message always belongs to it. */
  function Preamble(msgs: seq<Message>): seq<Message> {
    if msgs == [] then [] else msgs[..NextTurn(msgs, 1)]
  }

  function TurnsOf(msgs: seq<Message>): seq<Message> {
    if msgs == [] then [] else msgs[NextTurn(msgs, 1)..]
  }

  /** Every turn but the newest may be dropped. */
  function Removable(msgs: seq<Message>): nat {
    if TurnsIn(TurnsOf(msgs)) == 0 then 0 else TurnsIn(TurnsOf(msgs)) - 1
  }

  /** t without its k oldest turns. */
  function DropTurns(t: seq<Message>, k: nat): seq<Message> {
    if k == 0 || t == [] then t else DropTurns(t[NextTurn(t, 1)..], k - 1)
  }

  function Cut(msgs: seq<Message>, k: nat): seq<Message> {
    Preamble(msgs) + DropTurns(TurnsOf(msgs), k)
  }

  // ---- facts about turns -----------------------------------------------------------------------

  lemma {:induction false} TurnsInConcat(p: seq<Message>, s: seq<Message>)
    ensures TurnsIn(p + s) == TurnsIn(p) + TurnsIn(s)
  {
    if p == [] {
      assert p + s == s;
    } else {
      assert (p + s)[1..] == p[1..] + s;
      TurnsInConcat(p[1..], s);
    }
  }

  lemma {:induction false} NoTurns(p: seq<Message>)
    requires forall i :: 0 <= i < |p| ==> !p[i].role.Assistant?
    ensures TurnsIn(p) == 0
  {
    if p != [] {
      assert forall i :: 0 <= i < |p[1..]| ==> p[1..][i] == p[i + 1];
      NoTurns(p[1..]);
    }
  }

  /** The oldest turn of t counts for one. */
  lemma {:induction false} DropOne(t: seq<Message>)
    requires t != [] && t[0].role.Assistant?
    ensures TurnsIn(t) == 1 + TurnsIn(t[NextTurn(t, 1)..])
  {
    var b := NextTurn(t, 1);
    assert t[1..] == t[1..b] + t[b..];
    TurnsInConcat(t[1..b], t[b..]);
    NoTurns(t[1..b]);
  }

  lemma SliceOf(msgs: seq<Message>, a: nat, b: nat)
    requires a + b <= |msgs|
    ensures msgs[a..][..b] == msgs[a..a + b] && msgs[a..][b..] == msgs[a + b..]
    ensures msgs[a..a + b] + msgs[a + b..] == msgs[a..]
  {
  }

  /** Dropping k turns is one cut, at the boundary that has exactly k turns before it. */
  lemma {:induction false} DropTurnsIsSuffix(t: seq<Message>, k: nat) returns (b: nat)
    requires t != [] && t[0].role.Assistant? && k < TurnsIn(t)
    ensures b < |t| && DropTurns(t, k) == t[b..] && t[b].role.Assistant?
    ensures TurnsIn(t[..b]) == k && TurnsIn(t[b..]) == TurnsIn(t) - k
  {
    hide *;
    if k == 0 {
      b := 0;
      DropNone(t);
      assert t[..0] == [] && t[0..] == t;
    } else {
      var c := NextTurn(t, 1);
      DropOne(t);
      DropMore(t, k);
      b := DropTurnsIsSuffix(t[c..], k - 1);
      SliceOf(t, c, b);
      b := c + b;
      CountSplit(t, b);
    }
  }

  lemma {:induction false} DropNone(t: seq<Message>)
    ensures DropTurns(t, 0) == t && TurnsIn([]) == 0
  {
  }

  lemma DropMore(t: seq<Message>, k: nat)
    requires t != [] && k > 0
    ensures DropTurns(t, k) == DropTurns(t[NextTurn(t, 1)..], k - 1)
    ensures NextTurn(t, 1) < |t| ==> t[NextTurn(t, 1)..] != [] && t[NextTurn(t, 1)..][0].role.Assistant?
    ensures NextTurn(t, 1) == |t| ==> TurnsIn(t[NextTurn(t, 1)..]) == 0
  {
  }

  lemma {:induction false} CountSplit(t: seq<Message>, b: nat)
    requires b <= |t|
    ensures TurnsIn(t[..b]) + TurnsIn(t[b..]) == TurnsIn(t)
  {
    TurnsInConcat(t[..b], t[b..]);
    assert t[..b] + t[b..] == t;
  }

  lemma {:induction false} DropTurnsAdd(t: seq<Message>, j: nat, k: nat)
    requires j == 0 || (t != [] && t[0].role.Assistant? && j < TurnsIn(t))
    ensures DropTurns(DropTurns(t, j), k) == DropTurns(t, j + k)
    decreases j
  {
    hide *;
    if j == 0 {
      DropNone(t);
    } else {
      DropOne(t);
      DropMore(t, j);
      DropMore(t, j + k);
      DropTurnsAdd(t[NextTurn(t, 1)..], j - 1, k);
    }
  }

  /** The preamble and the turns can be read back from their concatenation. */
  lemma SplitAgain(p: seq<Message>, t: seq<Message>)
    requires p != [] && (forall i :: 1 <= i < |p| ==> !p[i].role.Assistant?)
    requires t != [] && t[0].role.Assistant?
    ensures Preamble(p + t) == p && TurnsOf(p + t) == t
  {
    var m, a := p + t, NextTurn(p + t, 1);
    assert m[|p|] == t[0];
    assert forall i :: 0 <= i < |p| ==> m[i] == p[i];
    assert a == |p|;
  }

  lemma {:induction false} PreambleHasNoTurn(msgs: seq<Message>)
    ensures msgs != [] ==> Preamble(msgs) == msgs[..NextTurn(msgs, 1)] && TurnsOf(msgs) == msgs[NextTurn(msgs, 1)..]
    ensures msgs != [] ==> |Preamble(msgs)| == NextTurn(msgs, 1)
    ensures forall i :: 1 <= i < |Preamble(msgs)| ==> !Preamble(msgs)[i].role.Assistant?
    ensures msgs == Preamble(msgs) + TurnsOf(msgs)
    ensures TurnsOf(msgs) != [] ==> Preamble(msgs) != [] && TurnsOf(msgs)[0].role.Assistant?
  {
  }

  // ---- what a cut does ---------------------------------------------------------------------------

  lemma {:induction false} CutParts(msgs: seq<Message>, k: nat)
    requires k <= Removable(msgs) && TurnsOf(msgs) != []
    ensures Preamble(Cut(msgs, k)) == Preamble(msgs)
    ensures TurnsOf(Cut(msgs, k)) == DropTurns(TurnsOf(msgs), k)
    ensures Removable(Cut(msgs, k)) == Removable(msgs) - k
    ensures TurnsOf(Cut(msgs, k)) != []
  {
    PreambleHasNoTurn(msgs);
    HasTurn(TurnsOf(msgs), 0);
    var b := DropTurnsIsSuffix(TurnsOf(msgs), k);
    SplitAgain(Preamble(msgs), TurnsOf(msgs)[b..]);
  }

  lemma JoinSlices(p: seq<Message>, t: seq<Message>, b: nat)
    requires b < |t|
    ensures (p + t)[..|p|] + (p + t)[|p| + b..] == p + t[b..]
    ensures (p + t)[|p|..|p| + b] == t[..b]
    ensures (p + t)[|p|] == t[0] && (p + t)[|p| + b] == t[b]
  {
    hide *;
  }

  /** A cut keeps the preamble, starts at a turn boundary, and removes exactly k turns. */
  lemma CutIsOneSlice(msgs: seq<Message>, k: nat) returns (a: nat, b: nat)
    requires k <= Removable(msgs) && TurnsOf(msgs) != []
    ensures a == |Preamble(msgs)| <= b < |msgs|
    ensures msgs[a].role.Assistant? && msgs[b].role.Assistant?
    ensures Cut(msgs, k) == msgs[..a] + msgs[b..]
    ensures TurnsIn(msgs[a..b]) == k
  {
    hide NextTurn, DropTurns;
    PreambleHasNoTurn(msgs);
    var p, t := Preamble(msgs), TurnsOf(msgs);
    assert Cut(msgs, k) == p + DropTurns(t, k);
    HasTurn(t, 0);
    hide *;
    b := DropTurnsIsSuffix(t, k);
    JoinSlices(p, t, b);
    a, b := |p|, |p| + b;
  }

  /** Cutting twice is cutting once. */
  lemma CutAdd(msgs: seq<Message>, j: nat, k: nat)
    requires j <= Removable(msgs)
    ensures Cut(Cut(msgs, j), k) == Cut(msgs, j + k)
  {
    hide DropTurns, NextTurn;
    PreambleHasNoTurn(msgs);
    if TurnsOf(msgs) == [] {
      CutNothing(msgs);
    } else {
      CutParts(msgs, j);
      DropTurnsAdd(TurnsOf(msgs), j, k);
    }
  }

  lemma CutNothing(msgs: seq<Message>)
    ensures Cut(msgs, 0) == msgs
  {
    PreambleHasNoTurn(msgs);
  }

  /** The newest turn survives every cut: only removable turns go. */
  lemma CutKeepsNewestTurn(msgs: seq<Message>, k: nat, n: nat)
    requires k <= Removable(msgs) && 1 <= n < |msgs| && msgs[n].role.Assistant?
    requires forall i :: n < i < |msgs| ==> !msgs[i].role.Assistant?
    ensures |msgs| - n <= |Cut(msgs, k)|
    ensures Cut(msgs, k)[|Cut(msgs, k)| - (|msgs| - n)..] == msgs[n..]
  {
    var a, b := CutIsOneSlice(msgs, k);
  }

  lemma {:induction false} HasTurn(t: seq<Message>, i: nat)
    requires i < |t| && t[i].role.Assistant?
    ensures TurnsIn(t) > 0
  {
    if i > 0 {
      HasTurn(t[1..], i - 1);
    }
  }

  /** A cut never separates a call from its result. */
  lemma CutKeepsPairing(msgs: seq<Message>, k: nat)
    requires WellFormed(msgs) && k <= Removable(msgs)
    ensures WellFormed(Cut(msgs, k))
  {
    if TurnsOf(msgs) == [] {
      CutNothing(msgs);
    } else {
      var a, b := CutIsOneSlice(msgs, k);
      ClearBeforeAssistant(msgs, a);
      ClearBeforeAssistant(msgs, b);
      OwedConcat(CLEAR, msgs[..a], msgs[b..]);
    }
  }

  // ---- the compaction methods -----------------------------------------------------------------

  lemma {:induction false} EvictedIsCut(msgs: seq<Message>, a: nat, b: nat)
    requires msgs != [] && a == NextTurn(msgs, 1) && a < b < |msgs| && b - a == NextTurn(msgs[a..], 1)
    ensures Removable(msgs) > 0 && Cut(msgs, 1) == msgs[..a] + msgs[b..]
  {
    var t := msgs[a..];
    DropOne(t);
    SliceOf(msgs, a, b - a);
    HasTurn(msgs[b..], 0);
    assert DropTurns(t, 1) == DropTurns(msgs[b..], 0);
  }

  lemma {:induction false} NoTurnAtAll(msgs: seq<Message>)
    requires msgs != [] ==> NextTurn(msgs, 1) == |msgs|
    ensures Removable(msgs) == 0
  {
  }

  lemma {:induction false} OnlyTurn(msgs: seq<Message>, a: nat)
    requires msgs != [] && a == NextTurn(msgs, 1) < |msgs| && NextTurn(msgs[a..], 1) == |msgs| - a
    ensures Removable(msgs) == 0
  {
    DropOne(msgs[a..]);
  }

  /** Drops the oldest turn, unless it is the only one. */
  method EvictOldestTurn(msgs: seq<Message>) returns (out: seq<Message>, ok: bool)
    ensures ok <==> Removable(msgs) > 0
    ensures out == if ok then Cut(msgs, 1) else msgs
  {
    hide Cut, Removable, TurnsIn, NextTurn;
    if |msgs| == 0 {
      NoTurnAtAll(msgs);
      return msgs, false;
    }
    var a := FindTurn(msgs, 1);
    if a >= |msgs| {
      NoTurnAtAll(msgs);
      return msgs, false;
    }
    var b := FindTurn(msgs[a..], 1);
    b := a + b;
    if b >= |msgs| {
      OnlyTurn(msgs, a);
      return msgs, false;
    }
    EvictedIsCut(msgs, a, b);
    return msgs[..a] + msgs[b..], true;
  }

  /** The scan for the next turn boundary. */
  method FindTurn(msgs: seq<Message>, from: nat) returns (j: nat)
    requires from <= |msgs|
    ensures j == NextTurn(msgs, from)
  {
    j := from;
    while j < |msgs|
      invariant from <= j <= |msgs| && NextTurn(msgs, from) == NextTurn(msgs, j)
    {
      if msgs[j].role.Assistant? {
        return;
      }
      j := j + 1;
    }
  }

  /** Drops the oldest half of the removable turns, rounded up. */
  method EvictOldestTurns(msgs0: seq<Message>) returns (msgs: seq<Message>, evicted: nat)
    ensures evicted == (Removable(msgs0) + 1) / 2
    ensures msgs == Compact(msgs0)
  {
    hide Cut, NextTurn, Preamble;
    var turns := 0;
    var i := 1;
    CountedAll(msgs0);
    while i < |msgs0|
      invariant 1 <= i && (msgs0 == [] ==> turns == 0)
      invariant msgs0 != [] ==> (i <= |msgs0| && turns + TurnsIn(msgs0[i..]) == TurnsIn(TurnsOf(msgs0)))
    {
      if msgs0[i].role.Assistant? {
        turns := turns + 1;
      }
      i := i + 1;
    }
    CutNothing(msgs0);
    assert turns == TurnsIn(TurnsOf(msgs0));
    var removable := turns - 1;
    if removable <= 0 {
      return msgs0, 0;
    }
    var target := (removable + 1) / 2;
    msgs, evicted := msgs0, 0;
    while evicted < target
      invariant evicted <= target && msgs == Cut(msgs0, evicted)
    {
      RemovableHasTurns(msgs0);
      CutParts(msgs0, evicted);
      CutAdd(msgs0, evicted, 1);
      var shrunk, ok := EvictOldestTurn(msgs);
      if !ok {
        break;
      }
      msgs := shrunk;
      evicted := evicted + 1;
    }
  }

  lemma RemovableHasTurns(msgs: seq<Message>)
    requires Removable(msgs) > 0
    ensures TurnsOf(msgs) != []
  {
  }

  lemma CountedAll(msgs: seq<Message>)
    ensures msgs != [] ==> TurnsIn(msgs[1..]) == TurnsIn(TurnsOf(msgs))
  {
    if msgs != [] {
      var a := NextTurn(msgs, 1);
      assert msgs[1..] == msgs[1..a] + msgs[a..];
      TurnsInConcat(msgs[1..a], msgs[a..]);
      NoTurns(msgs[1..a]);
    }
  }

  // ---- repeated compaction ----------------------------------------------------------------------

  /** One compaction: the oldest half of the removable turns, rounded up, goes. */
  function Compact(msgs: seq<Message>): seq<Message> {
    Cut(msgs, (Removable(msgs) + 1) / 2)
  }

  /** What k compactions leave. */
  function Compacted(msgs: seq<Message>, k: nat): seq<Message>
    decreases k
  {
    if k == 0 then msgs else Compact(Compacted(msgs, k - 1))
  }

  function Halved(r: nat, k: nat): nat {
    if k == 0 then r else Halved(r, k - 1) / 2
  }

  function Pow2(k: nat): (p: nat)
    ensures p > 0
  {
    if k == 0 then 1 else 2 * Pow2(k - 1)
  }

  lemma HalfLeft(r: nat)
    ensures (r + 1) / 2 <= r && r - (r + 1) / 2 == r / 2
  {
  }

  /** k compactions leave r halved k times, and keep every pairing. */
  lemma {:induction false} CompactedLeaves(msgs: seq<Message>, k: nat)
    ensures Removable(Compacted(msgs, k)) == Halved(Removable(msgs), k) <= Removable(msgs)
    ensures WellFormed(msgs) ==> WellFormed(Compacted(msgs, k))
    decreases k
  {
    hide Cut, Compact, Removable, WellFormed;
    if k > 0 {
      CompactedLeaves(msgs, k - 1);
      var half := CompactOnce(Compacted(msgs, k - 1));
    }
  }

  /** k compactions are one cut. */
  lemma {:induction false} CompactedIsOneCut(msgs: seq<Message>, k: nat)
    ensures Halved(Removable(msgs), k) <= Removable(msgs)
    ensures Compacted(msgs, k) == Cut(msgs, Removable(msgs) - Halved(Removable(msgs), k))
    decreases k
  {
    hide Cut, Compact, Removable, WellFormed;
    CutNothing(msgs);
    if k > 0 {
      CompactedIsOneCut(msgs, k - 1);
      CompactedLeaves(msgs, k - 1);
      var half := CompactOnce(Compacted(msgs, k - 1));
      CutAdd(msgs, Removable(msgs) - Halved(Removable(msgs), k - 1), half);
    }
  }

  lemma CompactOnce(msgs: seq<Message>) returns (half: nat)
    ensures half <= Removable(msgs) && Compact(msgs) == Cut(msgs, half)
    ensures Removable(Compact(msgs)) == Removable(msgs) - half == Removable(msgs) / 2
    ensures WellFormed(msgs) ==> WellFormed(Compact(msgs))
  {
    hide Cut, WellFormed;
    half := (Removable(msgs) + 1) / 2;
    HalfLeft(Removable(msgs));
    CutNothing(msgs);
    if TurnsOf(msgs) != [] {
      CutParts(msgs, half);
    }
    if WellFormed(msgs) {
      CutKeepsPairing(msgs, half);
    }
  }

  /** Halving k times is dividing by 2^k, rounding down. */
  lemma {:induction false} HalvedIsDivision(r: nat, k: nat)
    ensures Halved(r, k) == r / Pow2(k)
    decreases k
  {
    if k > 0 {
      HalvedIsDivision(r, k - 1);
      DivTwice(r, Pow2(k - 1));
    }
  }

  lemma DivTwice(r: nat, p: nat)
    requires p > 0
    ensures (r / p) / 2 == r / (2 * p)
  {
    var q, m := r / p, r % p;
    assert r == (2 * p) * (q / 2) + ((q % 2) * p + m);
    DivUnique(r, 2 * p, q / 2, (q % 2) * p + m);
  }

  lemma DivUnique(r: nat, d: nat, q: nat, m: nat)
    requires d > 0 && m < d && r == d * q + m
    ensures r / d == q
  {
    var q', m' := r / d, r % d;
    if q < q' {
      Step(d, q, q');
    } else if q' < q {
      Step(d, q', q);
    }
  }

  lemma Step(d: nat, a: nat, b: nat)
    requires a < b
    ensures d * a + d <= d * b
  {
    assert d * b == d * a + d * (b - a);
    assert d * (b - a) == d + d * (b - a - 1);
  }
}
