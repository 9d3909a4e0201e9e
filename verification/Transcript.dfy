/**
 The conversation a run sends to the provider, and when a provider accepts it.

 `Paired` is the rule itself: the conversation is a sequence of blocks, and an assistant message
 is followed at once by one tool result for each of its calls.  `Owed` is the same rule as a
 running account of unanswered call ids, which is what the loops need while they append.
 `WellFormedIffPaired` shows that the two agree.
*/
module Transcript {

  datatype Role = System | User | Assistant | Tool

  datatype Call = Call(id: string, name: string, args: string)

  datatype Part =
    | Text(text: string)
    | Image(data: string)
    | ToolCall(call: Call)
    | ToolResult(callId: string, content: string, isError: bool)
    | Reasoning(raw: string)

  datatype Message = Message(role: Role, parts: seq<Part>)

  function UserMsg(s: string): Message {
    Message(User, [Text(s)])
  }

  function ToolResultMsg(id: string, content: string, isErr: bool): Message {
    Message(Tool, [ToolResult(id, content, isErr)])
  }

  /** The calls among the parts, in order. */
  function ToolCalls(parts: seq<Part>): seq<Call> {
    if parts == [] then []
    else (if parts[0].ToolCall? then [parts[0].call] else []) + ToolCalls(parts[1..])
  }

  /** The ids of the calls, with multiplicity. */
  function IdBag(calls: seq<Call>): multiset<string> {
    if calls == [] then multiset{} else multiset{calls[0].id} + IdBag(calls[1..])
  }

  function Asked(m: Message): multiset<string> {
    IdBag(ToolCalls(m.parts))
  }

  predicate IsResult(m: Message) {
    m.role.Tool? && |m.parts| == 1 && m.parts[0].ToolResult?
  }

  function ResultId(m: Message): string {
    if IsResult(m) then m.parts[0].callId else ""
  }

  /** The ids that the messages answer, with multiplicity. */
  function ResultBag(ms: seq<Message>): multiset<string> {
    if ms == [] then multiset{} else multiset{ResultId(ms[0])} + ResultBag(ms[1..])
  }

  predicate AllResults(ms: seq<Message>) {
    forall i :: 0 <= i < |ms| ==> IsResult(ms[i])
  }

  // ---- the rule --------------------------------------------------------------------------

  /** rs answers every call of m exactly once. */
  predicate Answered(m: Message, rs: seq<Message>) {
    AllResults(rs) && ResultBag(rs) == Asked(m)
  }

  predicate Paired(msgs: seq<Message>)
    decreases |msgs|
  {
    if msgs == [] then true
    else match msgs[0].role
      case Tool => false
      case Assistant =>
        var k := |Asked(msgs[0])|;
        k < |msgs| && Answered(msgs[0], msgs[1..k + 1]) && Paired(msgs[k + 1..])
      case _ => Paired(msgs[1..])
  }

  // ---- the running account -----------------------------------------------------------------

  datatype Account = Broken | Open(ids: multiset<string>)

  const CLEAR := Open(multiset{})

  function Settle(a: Account, m: Message): Account {
    if a.Broken? then Broken
    else match m.role
      case Assistant => if a == CLEAR then Open(Asked(m)) else Broken
      case Tool =>
        if IsResult(m) && ResultId(m) in a.ids then Open(a.ids - multiset{ResultId(m)}) else Broken
      case _ => if a == CLEAR then a else Broken
  }

  /** The call ids still unanswered after s, when a is owed before it. */
  function Owed(a: Account, s: seq<Message>): Account
    decreases |s|
  {
    if s == [] then a else Owed(Settle(a, s[0]), s[1..])
  }

  predicate WellFormed(msgs: seq<Message>) {
    Owed(CLEAR, msgs) == CLEAR
  }

  lemma {:induction false} OwedConcat(a: Account, p: seq<Message>, s: seq<Message>)
    ensures Owed(a, p + s) == Owed(Owed(a, p), s)
    decreases |p|
  {
    if p == [] {
      assert p + s == s;
    } else {
      assert (p + s)[1..] == p[1..] + s;
      OwedConcat(Settle(a, p[0]), p[1..], s);
    }
  }

  lemma {:induction false} OwedSnoc(a: Account, p: seq<Message>, m: Message)
    ensures Owed(a, p + [m]) == Settle(Owed(a, p), m)
  {
    OwedConcat(a, p, [m]);
    assert [m][1..] == [];
  }

  lemma {:induction false} BrokenStays(s: seq<Message>)
    ensures Owed(Broken, s) == Broken
  {
    if s != [] {
      BrokenStays(s[1..]);
    }
  }

  lemma TakeOne<T>(a: multiset<T>, x: T, b: multiset<T>)
    requires multiset{x} + b <= a
    ensures x in a && b <= a - multiset{x}
    ensures a - multiset{x} - b == a - (multiset{x} + b)
  {
    assert (multiset{x} + b)[x] <= a[x];
    forall y ensures b[y] <= (a - multiset{x})[y] {
      assert (multiset{x} + b)[y] <= a[y];
    }
  }

  lemma SizeWithout<T>(a: multiset<T>, x: T)
    requires x in a
    ensures |a - multiset{x}| == |a| - 1 && a == multiset{x} + (a - multiset{x})
  {
  }

  /** One result that is owed. */
  lemma {:induction false} OwedOne(owed: multiset<string>, s: seq<Message>)
    requires s != [] && IsResult(s[0]) && ResultId(s[0]) in owed
    ensures Owed(Open(owed), s) == Owed(Open(owed - multiset{ResultId(s[0])}), s[1..])
  {
    assert Settle(Open(owed), s[0]) == Open(owed - multiset{ResultId(s[0])});
  }

  /** Results for ids that are owed settle exactly those ids. */
  lemma {:induction false} OwedResults(owed: multiset<string>, rs: seq<Message>)
    requires AllResults(rs) && ResultBag(rs) <= owed
    ensures Owed(Open(owed), rs) == Open(owed - ResultBag(rs))
  {
    if rs == [] {
      assert owed - multiset{} == owed;
    } else {
      var id, rest := ResultId(rs[0]), ResultBag(rs[1..]);
      TakeOne(owed, id, rest);
      OwedOne(owed, rs);
      OwedResults(owed - multiset{id}, rs[1..]);
    }
  }

  lemma {:induction false} OwedAll(owed: multiset<string>, rs: seq<Message>)
    requires AllResults(rs) && ResultBag(rs) == owed
    ensures Owed(Open(owed), rs) == CLEAR
  {
    OwedResults(owed, rs);
    assert owed - owed == multiset{};
  }

  lemma {:induction false} NothingForced(owed: multiset<string>, s: seq<Message>)
    requires Owed(Open(owed), s) == CLEAR && (s == [] || owed == multiset{})
    ensures owed == multiset{} && AllResults(s[..0]) && ResultBag(s[..0]) == multiset{}
  {
    assert s[..0] == [];
  }

  lemma {:induction false} FirstIsForced(owed: multiset<string>, s: seq<Message>)
    requires Owed(Open(owed), s) == CLEAR && s != [] && owed != multiset{}
    ensures IsResult(s[0]) && ResultId(s[0]) in owed && Owed(Open(owed - multiset{ResultId(s[0])}), s[1..]) == CLEAR
  {
    BrokenStays(s[1..]);
    hide ToolCalls, IdBag;
  }

  /** If everything is settled in the end, s starts with the results that are owed. */
  lemma {:induction false} OwedForcesResults(owed: multiset<string>, s: seq<Message>)
    requires Owed(Open(owed), s) == CLEAR
    ensures |owed| <= |s| && AllResults(s[..|owed|])
    ensures ResultBag(s[..|owed|]) == owed
  {
    hide *;
    if s == [] || owed == multiset{} {
      NothingForced(owed, s);
    } else {
      var id := ResultId(s[0]);
      FirstIsForced(owed, s);
      SizeWithout(owed, id);
      OwedForcesResults(owed - multiset{id}, s[1..]);
      PrependResult(s, |owed| - 1);
    }
  }

  /** Results settle what is owed exactly if they answer it, each id as often as it is owed. */
  lemma {:induction false} SettlesIff(owed: multiset<string>, rs: seq<Message>)
    requires AllResults(rs)
    ensures Owed(Open(owed), rs) == CLEAR <==> ResultBag(rs) == owed
  {
    if ResultBag(rs) == owed {
      OwedAll(owed, rs);
    }
    if Owed(Open(owed), rs) == CLEAR {
      OwedForcesResults(owed, rs);
      NothingLeftOver(owed, rs);
    }
  }

  /** After the results that are owed nothing is, so no result can follow. */
  lemma {:induction false} NothingLeftOver(owed: multiset<string>, rs: seq<Message>)
    requires AllResults(rs) && |owed| <= |rs| && ResultBag(rs[..|owed|]) == owed && Owed(Open(owed), rs) == CLEAR
    ensures ResultBag(rs) == owed
  {
    hide *;
    var k := |owed|;
    ResultsPrefix(rs, k);
    BlockThenRest(owed, rs, k);
    if k < |rs| {
      ResultAfterClear(rs[k..]);
      assert false;
    }
    assert rs[..k] == rs;
  }

  lemma ResultsPrefix(rs: seq<Message>, k: nat)
    requires AllResults(rs) && k <= |rs|
    ensures AllResults(rs[..k]) && (k < |rs| ==> IsResult(rs[k..][0]))
  {
    hide IsResult;
  }

  lemma {:induction false} ResultAfterClear(rs: seq<Message>)
    requires rs != [] && IsResult(rs[0])
    ensures Owed(CLEAR, rs) != CLEAR
  {
    BrokenStays(rs[1..]);
  }

  lemma PrependResult(s: seq<Message>, k: nat)
    requires k < |s| && IsResult(s[0]) && AllResults(s[1..][..k])
    ensures AllResults(s[..k + 1])
    ensures ResultBag(s[..k + 1]) == multiset{ResultId(s[0])} + ResultBag(s[1..][..k])
  {
    assert s[..k + 1] == [s[0]] + s[1..][..k];
  }

  // ---- the two agree -------------------------------------------------------------------------

  /** The provider's rule and the running account are the same. */
  lemma {:induction false} WellFormedIffPaired(msgs: seq<Message>)
    ensures WellFormed(msgs) <==> Paired(msgs)
    decreases |msgs|, 1
  {
    if msgs != [] {
      match msgs[0].role {
        case Tool => BrokenStays(msgs[1..]);
        case Assistant => BlockIffPaired(msgs[0], msgs[1..]); assert msgs == [msgs[0]] + msgs[1..];
        case _ => WellFormedIffPaired(msgs[1..]);
      }
    }
  }

  lemma {:induction false} BlockIffPaired(m: Message, s: seq<Message>)
    requires m.role.Assistant?
    ensures WellFormed([m] + s) <==> Paired([m] + s)
    decreases |s| + 1, 0
  {
    hide ToolCalls, IdBag, ResultBag, IsResult;
    var owed := Asked(m);
    var k := |owed|;
    assert ([m] + s)[1..] == s;
    if Owed(Open(owed), s) == CLEAR {
      OwedForcesResults(owed, s);
    }
    if k <= |s| {
      assert ([m] + s)[1..k + 1] == s[..k] && ([m] + s)[k + 1..] == s[k..];
      if Answered(m, s[..k]) {
        BlockThenRest(owed, s, k);
        WellFormedIffPaired(s[k..]);
      }
    }
  }

  lemma {:induction false} BlockThenRest(owed: multiset<string>, s: seq<Message>, k: nat)
    requires k <= |s| && AllResults(s[..k]) && ResultBag(s[..k]) == owed
    ensures Owed(Open(owed), s) == Owed(CLEAR, s[k..])
  {
    OwedAll(owed, s[..k]);
    OwedConcat(Open(owed), s[..k], s[k..]);
    assert s == s[..k] + s[k..];
  }

  /** Before an assistant message nothing is owed, so the rest stands on its own. */
  lemma ClearBeforeAssistant(msgs: seq<Message>, a: nat)
    requires a < |msgs| && msgs[a].role.Assistant? && WellFormed(msgs)
    ensures WellFormed(msgs[..a]) && WellFormed(msgs[a..])
  {
    OwedConcat(CLEAR, msgs[..a], msgs[a..]);
    assert msgs == msgs[..a] + msgs[a..];
    BrokenStays(msgs[a..][1..]);
  }

  /** A call whose id is not shared has exactly one result, and it stands in the block of its message. */
  lemma ExactlyOneResult(msgs: seq<Message>, i: nat, id: string)
    requires WellFormed(msgs) && i < |msgs| && msgs[i].role.Assistant? && Asked(msgs[i])[id] == 1
    ensures exists j: nat :: ResultFor(msgs, i, id, j) && forall j': nat :: ResultFor(msgs, i, id, j') ==> j' == j
  {
    var k, tail := |Asked(msgs[i])|, msgs[i..];
    ClearBeforeAssistant(msgs, i);
    WellFormedIffPaired(tail);
    var rs := tail[1..k + 1];
    assert forall q :: 0 <= q < k ==> rs[q] == msgs[i + 1 + q];
    var p := UniqueResult(rs, id);
    assert ResultFor(msgs, i, id, i + 1 + p);
    forall j': nat | ResultFor(msgs, i, id, j')
      ensures j' == i + 1 + p
    {
      assert rs[j' - i - 1] == msgs[j'];
    }
  }

  /** Message j is a result for id and stands in the block of message i. */
  ghost predicate ResultFor(msgs: seq<Message>, i: nat, id: string, j: nat) {
    i < j < |msgs| && j <= i + |Asked(msgs[i])| && IsResult(msgs[j]) && ResultId(msgs[j]) == id
  }

  lemma {:induction false} UniqueResult(rs: seq<Message>, id: string) returns (p: nat)
    requires AllResults(rs) && ResultBag(rs)[id] == 1
    ensures p < |rs| && ResultId(rs[p]) == id
    ensures forall q :: 0 <= q < |rs| && ResultId(rs[q]) == id ==> q == p
  {
    assert forall q :: 0 < q < |rs| ==> rs[q] == rs[1..][q - 1];
    if ResultId(rs[0]) == id {
      p := 0;
      NoResult(rs[1..], id);
    } else {
      p := UniqueResult(rs[1..], id);
      p := p + 1;
    }
  }

  lemma {:induction false} NoResult(rs: seq<Message>, id: string)
    requires ResultBag(rs)[id] == 0
    ensures forall q :: 0 <= q < |rs| ==> ResultId(rs[q]) != id
  {
    if rs != [] {
      NoResult(rs[1..], id);
      assert forall q :: 0 < q < |rs| ==> rs[q] == rs[1..][q - 1];
    }
  }
}
