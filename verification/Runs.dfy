/**
 What the harness reads off the observation of a shell command.  `Observe` computes it from the
 text, the way the observation was rendered: "exit <code> (<duration>)" on the first line, then
 the streams.  Everything downstream only uses the record.
*/
module Runs {
  import opened Texts

  datatype Exit = Passed | Failed | NotARun

  /** infra is the environment fault the text names, "" when there is none. */
  datatype RunOutput = RunOutput(exit: Exit, timedOut: bool, infra: string, saysDidNotPass: bool, fingerprint: string)

  predicate HasPrefix(s: string, p: string) {
    |p| <= |s| && s[..|p|] == p
  }

  predicate Contains(s: string, sub: string) {
    HasPrefix(s, sub) || (s != "" && Contains(s[1..], sub))
  }

  /** sub stands somewhere in s. */
  lemma {:induction false} ContainsIff(s: string, sub: string)
    ensures Contains(s, sub) <==> exists k: nat :: OccursAt(s, sub, k)
    decreases |s|
  {
    assert HasPrefix(s, sub) <==> OccursAt(s, sub, 0);
    if s != "" {
      ContainsIff(s[1..], sub);
      if Contains(s[1..], sub) {
        var k: nat :| OccursAt(s[1..], sub, k);
        assert OccursAt(s, sub, k + 1);
      }
      forall k: nat | OccursAt(s, sub, k)
        ensures Contains(s, sub)
      {
        if k > 0 {
          assert s[1..][k - 1..k - 1 + |sub|] == sub;
          assert OccursAt(s[1..], sub, k - 1);
        }
      }
    } else {
      forall k: nat | OccursAt(s, sub, k)
        ensures k == 0
      {
      }
    }
  }

  /** One differing character is enough. */
  lemma DiffersAt(s: string, p: string, k: nat)
    requires k < |s| && k < |p| && s[k] != p[k]
    ensures !HasPrefix(s, p)
  {
    if |p| <= |s| {
      assert s[..|p|][k] == s[k];
    }
  }

  function LowerChar(c: char): char {
    if 'A' <= c <= 'Z' then c - 'A' + 'a' else c
  }

  function ToLower(s: string): string {
    seq(|s|, i requires 0 <= i < |s| => LowerChar(s[i]))
  }

  /** The text before the first occurrence of c. */
  function Before(s: string, c: char): string {
    if s == "" || s[0] == c then "" else [s[0]] + Before(s[1..], c)
  }

  /** The lines of s, split at newlines; a final newline does not open another line. */
  function Lines(s: string): seq<string>
    decreases |s|
  {
    if s == "" then []
    else
      var line := Before(s, '\n');
      assert |line| <= |s| by { BeforeStops(s, '\n'); }
      [line] + if |line| < |s| then Lines(s[|line| + 1..]) else []
  }

  lemma {:induction false} BeforeStops(s: string, c: char)
    ensures |Before(s, c)| <= |s| && Before(s, c) == s[..|Before(s, c)|] && c !in Before(s, c)
    ensures c in s <==> |Before(s, c)| < |s|
    ensures |Before(s, c)| < |s| ==> s[|Before(s, c)|] == c
  {
    if s != "" && s[0] != c {
      BeforeStops(s[1..], c);
      assert s == [s[0]] + s[1..];
    }
  }

  function TrimRightSpaces(s: string): string {
    if s != "" && s[|s| - 1] == ' ' then TrimRightSpaces(s[..|s| - 1]) else s
  }

  const INFRA_SIGNATURES :=
    ["disk quota exceeded", "no space left on device", "cannot allocate memory", "too many open files"]

  function FirstIn(sigs: seq<string>, s: string): string {
    if sigs == [] then "" else if Contains(s, sigs[0]) then sigs[0] else FirstIn(sigs[1..], s)
  }

  /** A failing test that quotes a fault is a failing test, not a fault. */
  function InfraFaultSignature(s: string): string {
    if Contains(s, "--- FAIL") then "" else FirstIn(INFRA_SIGNATURES, ToLower(s))
  }

  predicate IsDigit(c: char) {
    '0' <= c <= '9'
  }

  lemma DigitsAre(c: char)
    ensures IsDigit(c) <==> c in "0123456789"
  {
  }

  /** Every run of digits becomes one '#'. */
  function MaskDigits(line: string, inDigits: bool): string {
    if line == "" then ""
    else if IsDigit(line[0]) then (if inDigits then "" else "#") + MaskDigits(line[1..], true)
    else [line[0]] + MaskDigits(line[1..], false)
  }

  function MaskLines(lines: seq<string>, isAssertion: string -> bool): string {
    if lines == [] then ""
    else
      "\n" + (if isAssertion(lines[0]) then lines[0] else MaskDigits(lines[0], false)) +
      MaskLines(lines[1..], isAssertion)
  }

  function Header(first: string): string {
    if '(' in first then TrimRightSpaces(Before(first, '(')) else first
  }

  /** The part of an observation that is the same when the same command is run again. */
  function RunFingerprint(obs: string, isAssertion: string -> bool): string {
    var first := Before(obs, '\n');
    assert |first| <= |obs| by { BeforeStops(obs, '\n'); }
    if |first| == |obs| then Header(first)
    else Header(first) + MaskLines(Lines(obs[|first| + 1..]), isAssertion)
  }

  function Observe(obs: string, isAssertion: string -> bool): RunOutput {
    RunOutput(
      if HasPrefix(obs, "exit 0 ") then Passed else if HasPrefix(obs, "exit ") then Failed else NotARun,
      Contains(Before(obs, '\n'), "[timed out"),
      InfraFaultSignature(obs),
      Contains(obs, "did not pass:"),
      RunFingerprint(obs, isAssertion))
  }

  // ---- what an observation was rendered from is read off it --------------------------------------------

  /** How the result of a command is shown: code and duration first, a remark on a timeout, and the streams, if any. */
  function Rendered(code: string, duration: string, timedOut: bool, advice: string, streams: string): string {
    "exit " + code + " (" + duration + ")" + (if timedOut then " [timed out" + advice else "") +
    if streams == "" then "" else "\n" + streams
  }

  /** The parts of a first line that come from outside. */
  predicate PlainPart(s: string) {
    forall c :: c in s ==> c != ' ' && c != '\n' && c != '(' && c != '['
  }

  /** A rendered run is a pass exactly with code 0 and a failure with any other, and timed out exactly if marked so. */
  lemma {:induction false} RenderedIsRead(code: string, duration: string, timedOut: bool, advice: string,
          streams: string, isAssertion: string -> bool)
    requires PlainPart(code) && PlainPart(duration) && '\n' !in advice
    ensures var o := Observe(Rendered(code, duration, timedOut, advice, streams), isAssertion);
            && (o.exit.Passed? <==> code == "0") && (o.exit.Failed? <==> code != "0") && (o.timedOut <==> timedOut)
  {
    hide RunFingerprint, InfraFaultSignature, Contains;
    var rest := "(" + duration + ")" + (if timedOut then " [timed out" + advice else "") +
      if streams == "" then "" else "\n" + streams;
    assert Rendered(code, duration, timedOut, advice, streams) == "exit " + (code + " " + rest);
    CodeRead(code, rest);
    FirstLineMarked(code, duration, timedOut, advice, streams);
  }

  lemma CodeRead(code: string, rest: string)
    requires ' ' !in code
    ensures var obs := "exit " + (code + " " + rest);
            HasPrefix(obs, "exit ") && (HasPrefix(obs, "exit 0 ") <==> code == "0")
  {
    var obs := "exit " + (code + " " + rest);
    NoSpace(code);
    NoSpace("0");
    assert "exit 0 " == "exit " + "0 " && "0" + " " == "0 ";
    if |obs| >= 7 {
      var y := obs[7..];
      SplitUnique(code, "0", " ", rest, y);
      assert obs == obs[..7] + y && obs[5..] == code + " " + rest;
      assert HasPrefix(obs, "exit 0 ") <==> obs[5..7] == "0 ";
      assert obs[5..] == obs[5..7] + y;
    }
  }

  lemma NoSpace(s: string)
    requires ' ' !in s
    ensures Delimited(s, " ")
  {
    forall k: nat | k < |s| ensures !OccursAt(s + " ", " ", k) {
      assert (s + " ")[k..k + 1][0] == s[k];
    }
  }

  /** The first line of a rendered run. */
  function FirstLine(code: string, duration: string, timedOut: bool, advice: string): string {
    "exit " + code + " (" + duration + ")" + if timedOut then " [timed out" + advice else ""
  }

  lemma RenderedFirst(code: string, duration: string, timedOut: bool, advice: string, streams: string)
    requires PlainPart(code) && PlainPart(duration) && '\n' !in advice
    ensures var first := FirstLine(code, duration, timedOut, advice);
            && '\n' !in first && Before(Rendered(code, duration, timedOut, advice, streams), '\n') == first
            && Rendered(code, duration, timedOut, advice, streams) ==
               (if streams == "" then first else first + ['\n'] + streams)
  {
    var first := FirstLine(code, duration, timedOut, advice);
    HeadPlain(code, duration);
    assert '\n' !in " [timed out";
    hide Before;
    assert Rendered(code, duration, timedOut, advice, streams) ==
           if streams == "" then first else first + ['\n'] + streams;
    BeforeAll(first, '\n');
    BeforeConcat(first, '\n', streams);
  }

  lemma {:induction false} FirstLineMarked(code: string, duration: string, timedOut: bool, advice: string,
          streams: string)
    requires PlainPart(code) && PlainPart(duration) && '\n' !in advice
    ensures Contains(Before(Rendered(code, duration, timedOut, advice, streams), '\n'), "[timed out") <==> timedOut
  {
    hide *;
    RenderedFirst(code, duration, timedOut, advice, streams);
    ContainsIff(FirstLine(code, duration, timedOut, advice), "[timed out");
    MarkedIf(code, duration, timedOut, advice);
  }

  lemma MarkedIf(code: string, duration: string, timedOut: bool, advice: string)
    requires PlainPart(code) && PlainPart(duration)
    ensures timedOut <==> exists k: nat :: OccursAt(FirstLine(code, duration, timedOut, advice), "[timed out", k)
  {
    var head := "exit " + code + " (" + duration + ")";
    var first := FirstLine(code, duration, timedOut, advice);
    HeadPlain(code, duration);
    hide FirstLine;
    FirstLineIs(code, duration, timedOut, advice);
    if timedOut {
      OccursIn(head + " ", "[timed out", advice);
    } else {
      forall k: nat ensures !OccursAt(first, "[timed out", k) {
        if OccursAt(first, "[timed out", k) {
          FirstOccurs(first, "[timed out", k);
        }
      }
    }
  }

  lemma FirstLineIs(code: string, duration: string, timedOut: bool, advice: string)
    ensures var head := "exit " + code + " (" + duration + ")";
            FirstLine(code, duration, timedOut, advice) == if timedOut then head + " " + "[timed out" + advice else head
  {
  }

  lemma OccursIn(a: string, sub: string, b: string)
    ensures OccursAt(a + sub + b, sub, |a|)
  {
  }

  lemma FirstOccurs(s: string, sub: string, k: nat)
    requires OccursAt(s, sub, k) && sub != ""
    ensures sub[0] in s
  {
    assert s[k..k + |sub|][0] == s[k];
  }

  lemma HeadPlain(code: string, duration: string)
    requires PlainPart(code) && PlainPart(duration)
    ensures var head := "exit " + code + " (" + duration + ")"; '\n' !in head && '[' !in head
  {
    assert '\n' !in "exit " && '[' !in "exit " && '\n' !in " (" && '[' !in " (";
  }

  lemma {:induction false} BeforeAll(s: string, c: char)
    requires c !in s
    ensures Before(s, c) == s
  {
    if s != "" {
      BeforeAll(s[1..], c);
    }
  }

  /** s holds t, in capitals or small letters. */
  ghost predicate Mentions(s: string, t: string) {
    exists k: nat :: SpelledAt(s, t, k)
  }

  /**
   An environment fault is one of four texts, in any case, in an output that reports no failing test;
   the first in this order counts.
  */
  lemma InfraMeans(s: string)
    ensures var fault := InfraFaultSignature(s);
            var tests := exists k: nat :: OccursAt(s, "--- FAIL", k);
            && (tests ==> fault == "")
            && (!tests ==>
                 fault == if Mentions(s, "disk quota exceeded") then "disk quota exceeded"
                          else if Mentions(s, "no space left on device") then "no space left on device"
                          else if Mentions(s, "cannot allocate memory") then "cannot allocate memory"
                          else if Mentions(s, "too many open files") then "too many open files" else "")
  {
    hide Contains, ToLower, Mentions, FirstIn;
    ContainsIff(s, "--- FAIL");
    MentionsIff(s, "disk quota exceeded");
    MentionsIff(s, "no space left on device");
    MentionsIff(s, "cannot allocate memory");
    MentionsIff(s, "too many open files");
    FirstOfFour(INFRA_SIGNATURES, ToLower(s));
  }

  datatype Grade = TestFailure | BuildFailure | Unrecognized

  /** How a test command failed: a reported failing test wins over any sign that something was not built. */
  function GradeRed(s: string): Grade {
    if Contains(s, "--- FAIL") then TestFailure
    else if Contains(ToLower(s), "[build failed]") || Contains(ToLower(s), "[setup failed]")
      || Contains(ToLower(s), "[vet failed]") || Contains(ToLower(s), "build constraints exclude") then
      BuildFailure
    else if Contains(s, "FAIL\t") then TestFailure
    else Unrecognized
  }

  /** A build failure shows in one of four texts, in any case, in an output that reports no failing test. */
  lemma GradeMeans(s: string)
    ensures var tests := exists k: nat :: OccursAt(s, "--- FAIL", k);
            var unbuilt := Mentions(s, "[build failed]") || Mentions(s, "[setup failed]") || Mentions(s, "[vet failed]")
                           || Mentions(s, "build constraints exclude");
            && (GradeRed(s).BuildFailure? <==> !tests && unbuilt)
            && (GradeRed(s).TestFailure? <==> tests || (!unbuilt && exists k: nat :: OccursAt(s, "FAIL\t", k)))
  {
    hide Contains, ToLower, Mentions;
    ContainsIff(s, "--- FAIL");
    ContainsIff(s, "FAIL\t");
    MentionsIff(s, "[build failed]");
    MentionsIff(s, "[setup failed]");
    MentionsIff(s, "[vet failed]");
    MentionsIff(s, "build constraints exclude");
  }

  lemma {:induction false} FirstOfFour(sigs: seq<string>, s: string)
    requires |sigs| == 4
    ensures FirstIn(sigs, s) ==
            if Contains(s, sigs[0]) then sigs[0] else if Contains(s, sigs[1]) then sigs[1]
            else if Contains(s, sigs[2]) then sigs[2] else if Contains(s, sigs[3]) then sigs[3] else ""
  {
    hide Contains;
    assert sigs[1..][1..] == sigs[2..] && sigs[2..][1..] == sigs[3..] && sigs[3..][1..] == [];
    assert FirstIn(sigs[3..], s) == if Contains(s, sigs[3]) then sigs[3] else "";
    assert FirstIn(sigs[2..], s) == if Contains(s, sigs[2]) then sigs[2] else FirstIn(sigs[3..], s);
    assert FirstIn(sigs[1..], s) == if Contains(s, sigs[1]) then sigs[1] else FirstIn(sigs[2..], s);
  }

  /** Looking in the text in small letters is looking in either case. */
  lemma {:induction false} MentionsIff(s: string, t: string)
    requires forall i :: 0 <= i < |t| ==> !('A' <= t[i] <= 'Z')
    ensures Contains(ToLower(s), t) <==> Mentions(s, t)
  {
    hide Contains;
    ContainsIff(ToLower(s), t);
    forall k: nat
      ensures OccursAt(ToLower(s), t, k) <==> SpelledAt(s, t, k)
    {
      if k + |t| <= |s| {
        assert ToLower(s)[k..k + |t|] == ToLower(s[k..k + |t|]);
        LowerSpells(s[k..k + |t|], t);
      }
    }
  }

  lemma LowerSpells(s: string, t: string)
    requires forall i :: 0 <= i < |t| ==> !('A' <= t[i] <= 'Z')
    ensures ToLower(s) == t <==> Spells(s, t)
  {
    if ToLower(s) == t {
      assert forall i :: 0 <= i < |s| ==> LowerChar(s[i]) == t[i];
    }
    if Spells(s, t) {
      assert forall i :: 0 <= i < |s| ==> LowerChar(s[i]) == t[i];
    }
  }

  /** The remark that a command did not pass is looked for to the letter. */
  lemma DidNotPassMeans(obs: string, isAssertion: string -> bool)
    ensures Observe(obs, isAssertion).saysDidNotPass <==> exists k: nat :: OccursAt(obs, "did not pass:", k)
  {
    hide RunFingerprint, InfraFaultSignature, Contains;
    ContainsIff(obs, "did not pass:");
  }

  // ---- what fingerprints tell apart ------------------------------------------------------------------------

  function MaskLine(line: string, isAssertion: string -> bool): string {
    if isAssertion(line) then line else MaskDigits(line, false)
  }

  function DropDigits(s: string): (t: string)
    ensures |t| <= |s| && (s != "" && IsDigit(s[0]) ==> |t| < |s|)
  {
    if s != "" && IsDigit(s[0]) then DropDigits(s[1..]) else s
  }

  /** The lines are the same but for their numbers. */
  predicate SameButNumbers(a: string, b: string)
    decreases |a|
  {
    if a == "" || b == "" then a == b
    else if IsDigit(a[0]) && IsDigit(b[0]) then SameButNumbers(DropDigits(a), DropDigits(b))
    else a[0] == b[0] && SameButNumbers(a[1..], b[1..])
  }

  /** Masked lines are equal exactly if the lines are the same but for their numbers; '#' stands for numbers only. */
  lemma {:induction false} MaskTells(a: string, b: string)
    requires '#' !in a && '#' !in b
    ensures MaskDigits(a, false) == MaskDigits(b, false) <==> SameButNumbers(a, b)
    decreases |a|
  {
    if a != "" && b != "" {
      var da, db := IsDigit(a[0]), IsDigit(b[0]);
      MaskFirst(a);
      MaskFirst(b);
      if da && db {
        DropIn(a);
        DropIn(b);
        MaskTells(DropDigits(a), DropDigits(b));
      } else if !da && !db {
        MaskTells(a[1..], b[1..]);
      }
    } else {
      MaskEmpty(a);
      MaskEmpty(b);
    }
  }

  lemma {:induction false} MaskEmpty(a: string)
    ensures MaskDigits(a, false) == "" <==> a == ""
  {
  }

  /** A mask starts with the first character, or with '#' for the first number. */
  lemma {:induction false} MaskFirst(a: string)
    requires a != ""
    ensures IsDigit(a[0]) ==> MaskDigits(a, false) == "#" + MaskDigits(DropDigits(a), false)
    ensures !IsDigit(a[0]) ==> MaskDigits(a, false) == [a[0]] + MaskDigits(a[1..], false)
    ensures MaskDigits(a, false)[1..] == MaskDigits(if IsDigit(a[0]) then DropDigits(a) else a[1..], false)
  {
    if IsDigit(a[0]) {
      MaskDropped(a[1..]);
      MaskOne(a, false);
    }
  }

  lemma {:induction false} MaskDropped(a: string)
    ensures MaskDigits(a, true) == MaskDigits(DropDigits(a), false)
  {
    if a != "" && IsDigit(a[0]) {
      MaskDropped(a[1..]);
      MaskOne(a, true);
    } else {
      MaskNext(a);
    }
  }

  lemma {:induction false} DropIn(a: string)
    ensures forall c :: c in DropDigits(a) ==> c in a
  {
    if a != "" && IsDigit(a[0]) {
      DropIn(a[1..]);
    }
  }

  // ---- the fingerprint ignores what varies between runs --------------------------------------

  lemma {:induction false} BeforeConcat(a: string, c: char, s: string)
    requires c !in a
    ensures Before(a + [c] + s, c) == a
    decreases |a|
  {
    var t := a + [c] + s;
    if a != "" {
      assert t[1..] == a[1..] + [c] + s;
      BeforeConcat(a[1..], c, s);
      assert t[0] == a[0];
    }
  }

  /** Two observations that differ only in the duration have the same fingerprint. */
  lemma DurationIgnored(code: string, d1: string, d2: string, body: string, isAssertion: string -> bool)
    requires '\n' !in code && '\n' !in d1 && '\n' !in d2 && '(' !in code
    ensures RunFingerprint(code + "(" + d1 + ")\n" + body, isAssertion) ==
            RunFingerprint(code + "(" + d2 + ")\n" + body, isAssertion)
  {
    DurationCut(code, d1, body, isAssertion);
    DurationCut(code, d2, body, isAssertion);
  }

  lemma {:induction false} DurationCut(code: string, d: string, body: string, isAssertion: string -> bool)
    requires '\n' !in code && '\n' !in d && '(' !in code
    ensures RunFingerprint(code + "(" + d + ")\n" + body, isAssertion) ==
            TrimRightSpaces(code) + MaskLines(Lines(body), isAssertion)
  {
    hide TrimRightSpaces, MaskLines, Lines;
    var first := code + "(" + d + ")";
    var obs := code + "(" + d + ")\n" + body;
    assert obs == first + ['\n'] + body;
    assert '\n' !in first;
    BeforeConcat(first, '\n', body);
    assert obs[|first| + 1..] == body;
    assert first == code + ['('] + (d + ")");
    assert first[|code|] == '(';
    BeforeConcat(code, '(', d + ")");
  }

  /** Two lines that differ only in the digits of one number look the same. */
  lemma {:induction false} NumberIgnored(pre: string, n1: string, n2: string, post: string, inDigits: bool)
    requires n1 != "" && n2 != "" && (forall c :: c in n1 + n2 ==> IsDigit(c))
    requires post != "" ==> !IsDigit(post[0])
    ensures MaskDigits(pre + n1 + post, inDigits) == MaskDigits(pre + n2 + post, inDigits)
    decreases |pre|
  {
    if pre == "" {
      DigitsRun(n1, post, inDigits);
      DigitsRun(n2, post, inDigits);
      assert pre + n1 + post == n1 + post && pre + n2 + post == n2 + post;
    } else {
      assert (pre + n1 + post)[1..] == pre[1..] + n1 + post;
      assert (pre + n2 + post)[1..] == pre[1..] + n2 + post;
      NumberIgnored(pre[1..], n1, n2, post, IsDigit(pre[0]));
    }
  }

  lemma {:induction false} MaskOne(line: string, inDigits: bool)
    requires line != "" && IsDigit(line[0])
    ensures MaskDigits(line, inDigits) == (if inDigits then "" else "#") + MaskDigits(line[1..], true)
  {
  }

  lemma {:induction false} MaskNext(line: string)
    requires line != "" ==> !IsDigit(line[0])
    ensures MaskDigits(line, true) == MaskDigits(line, false)
  {
  }

  lemma {:induction false} DigitsRun(n: string, post: string, inDigits: bool)
    requires n != "" && (forall c :: c in n ==> IsDigit(c)) && (post != "" ==> !IsDigit(post[0]))
    ensures MaskDigits(n + post, inDigits) == (if inDigits then "" else "#") + MaskDigits(post, false)
    decreases |n|
  {
    hide *;
    assert (n + post)[0] == n[0] && (n + post)[1..] == n[1..] + post;
    assert n[0] in n;
    MaskOne(n + post, inDigits);
    if |n| == 1 {
      assert n[1..] + post == post;
      MaskNext(post);
    } else {
      assert forall c :: c in n[1..] ==> c in n;
      DigitsRun(n[1..], post, true);
    }
  }

  // ---- the fingerprint of a rendered run ---------------------------------------------------------------------

  lemma {:induction false} TrimsOne(s: string)
    requires s != "" && s[|s| - 1] != ' '
    ensures TrimRightSpaces(s + " ") == s
  {
    assert (s + " ")[..|s|] == s;
  }

  lemma {:induction false} NoLines()
    ensures Lines("") == []
  {
  }

  /** The fingerprint of a rendered run is its exit code and its masked output. */
  lemma {:induction false} RenderedFingerprint(code: string, duration: string, timedOut: bool, advice: string,
          streams: string, isAssertion: string -> bool)
    requires PlainPart(code) && code != "" && PlainPart(duration) && '\n' !in advice
    ensures RunFingerprint(Rendered(code, duration, timedOut, advice, streams), isAssertion) ==
            "exit " + code + MaskLines(Lines(streams), isAssertion)
  {
    hide *;
    RenderedFirst(code, duration, timedOut, advice, streams);
    FingerprintIs(FirstLine(code, duration, timedOut, advice), streams, isAssertion);
    FirstHeader(code, duration, timedOut, advice);
  }

  lemma FirstHeader(code: string, duration: string, timedOut: bool, advice: string)
    requires PlainPart(code) && code != ""
    ensures Header(FirstLine(code, duration, timedOut, advice)) == "exit " + code
  {
    hide TrimRightSpaces, Before;
    var head := "exit " + code + " ";
    var rest := duration + ")" + if timedOut then " [timed out" + advice else "";
    var first := FirstLine(code, duration, timedOut, advice);
    assert '(' !in "exit ";
    assert first == head + ['('] + rest && first[|head|] == '(';
    assert code[|code| - 1] in code;
    TrimsOne("exit " + code);
    BeforeConcat(head, '(', rest);
  }

  /** The fingerprint of a first line with something after it. */
  lemma {:induction false} FingerprintIs(first: string, streams: string, isAssertion: string -> bool)
    requires '\n' !in first
    ensures RunFingerprint(if streams == "" then first else first + ['\n'] + streams, isAssertion) ==
            Header(first) + MaskLines(Lines(streams), isAssertion)
  {
    hide MaskLines, Lines, Header, Before;
    NoLines();
    NothingMasked(isAssertion);
    BeforeAll(first, '\n');
    BeforeConcat(first, '\n', streams);
    assert Header(first) + "" == Header(first);
    assert (first + ['\n'] + streams)[|first| + 1..] == streams;
  }

  lemma NothingMasked(isAssertion: string -> bool)
    ensures MaskLines([], isAssertion) == ""
  {
  }

  /** Outputs look the same if they have the same lines, up to what is masked. */
  predicate SameOutput(ls: seq<string>, ms: seq<string>, isAssertion: string -> bool) {
    |ls| == |ms| && forall k :: 0 <= k < |ls| ==> MaskLine(ls[k], isAssertion) == MaskLine(ms[k], isAssertion)
  }

  predicate AllOneLine(ls: seq<string>) {
    forall k :: 0 <= k < |ls| ==> '\n' !in ls[k]
  }

  lemma {:induction false} MaskKeepsLine(line: string, inDigits: bool)
    requires '\n' !in line
    ensures '\n' !in MaskDigits(line, inDigits)
  {
    if line != "" {
      MaskKeepsLine(line[1..], IsDigit(line[0]));
    }
  }

  lemma MaskedLine(line: string, isAssertion: string -> bool)
    requires '\n' !in line
    ensures '\n' !in MaskLine(line, isAssertion)
  {
    MaskKeepsLine(line, false);
  }

  lemma {:induction false} MasksTell(ls: seq<string>, ms: seq<string>, isAssertion: string -> bool)
    requires AllOneLine(ls) && AllOneLine(ms)
    ensures MaskLines(ls, isAssertion) == MaskLines(ms, isAssertion) <==> SameOutput(ls, ms, isAssertion)
    decreases |ls|
  {
    MasksStart(ls, isAssertion);
    MasksStart(ms, isAssertion);
    if ls != [] && ms != [] {
      hide MaskLines, MaskLine;
      MasksTell(ls[1..], ms[1..], isAssertion);
      MasksStart(ls[1..], isAssertion);
      MasksStart(ms[1..], isAssertion);
      MaskedLine(ls[0], isAssertion);
      MaskedLine(ms[0], isAssertion);
      LineCut(MaskLine(ls[0], isAssertion), MaskLines(ls[1..], isAssertion), MaskLine(ms[0], isAssertion),
              MaskLines(ms[1..], isAssertion));
      SameOutputHead(ls, ms, isAssertion);
    }
  }

  lemma SameOutputHead(ls: seq<string>, ms: seq<string>, isAssertion: string -> bool)
    requires ls != [] && ms != []
    ensures SameOutput(ls, ms, isAssertion) <==>
            MaskLine(ls[0], isAssertion) == MaskLine(ms[0], isAssertion) && SameOutput(ls[1..], ms[1..], isAssertion)
  {
    hide MaskLine;
    if MaskLine(ls[0], isAssertion) == MaskLine(ms[0], isAssertion) && SameOutput(ls[1..], ms[1..], isAssertion) {
      forall k | 0 <= k < |ls| ensures MaskLine(ls[k], isAssertion) == MaskLine(ms[k], isAssertion) {
        assert k > 0 ==> ls[k] == ls[1..][k - 1] && ms[k] == ms[1..][k - 1];
      }
    }
  }

  lemma {:induction false} MasksStart(ls: seq<string>, isAssertion: string -> bool)
    ensures ls == [] ==> MaskLines(ls, isAssertion) == ""
    ensures ls != [] ==>
              MaskLines(ls, isAssertion) == "\n" + (MaskLine(ls[0], isAssertion) + MaskLines(ls[1..], isAssertion))
    ensures ls != [] ==> MaskLines(ls, isAssertion) != "" && MaskLines(ls, isAssertion)[0] == '\n'
  {
  }

  /** One line is told from what follows on the next. */
  lemma LineCut(a: string, x: string, b: string, y: string)
    requires '\n' !in a && '\n' !in b && (x != "" ==> x[0] == '\n') && (y != "" ==> y[0] == '\n')
    ensures a + x == b + y <==> a == b && x == y
    ensures "\n" + (a + x) == "\n" + (b + y) <==> a + x == b + y
  {
    BeforeLine(a, x);
    BeforeLine(b, y);
    assert (a + x)[|a|..] == x && (b + y)[|b|..] == y;
    assert ("\n" + (a + x))[1..] == a + x && ("\n" + (b + y))[1..] == b + y;
  }

  lemma {:induction false} BeforeLine(a: string, x: string)
    requires '\n' !in a && (x != "" ==> x[0] == '\n')
    ensures Before(a + x, '\n') == a
  {
    if x == "" {
      assert a + x == a;
      BeforeAll(a, '\n');
    } else {
      assert a + x == a + ['\n'] + x[1..];
      BeforeConcat(a, '\n', x[1..]);
    }
  }

  lemma {:induction false} LinesMean(s: string)
    ensures AllOneLine(Lines(s))
    ensures s != "" ==> Joined(Lines(s)) == s || Joined(Lines(s)) + "\n" == s
    ensures s == "" ==> Lines(s) == []
    decreases |s|
  {
    hide Lines, Before, Joined;
    LinesStep(s);
    if s != "" {
      var line := Before(s, '\n');
      if |line| < |s| {
        var rest := s[|line| + 1..];
        LinesMean(rest);
        JoinedHead(line, Lines(rest));
        assert s == line + ("\n" + rest);
        if rest != "" {
          LinesStep(rest);
          assert line + ("\n" + Joined(Lines(rest))) + "\n" == line + ("\n" + (Joined(Lines(rest)) + "\n"));
        }
      } else {
        JoinedHead(line, []);
        assert [line] + [] == [line];
      }
    }
  }

  lemma {:induction false} LinesStep(s: string)
    ensures s == "" ==> Lines(s) == []
    ensures s != "" ==>
              var line := Before(s, '\n');
              && |line| <= |s| && '\n' !in line && Lines(s) != []
              && (|line| < |s| ==> s == line + ("\n" + s[|line| + 1..]) && Lines(s) == [line] + Lines(s[|line| + 1..]))
              && (|line| == |s| ==> s == line && Lines(s) == [line])
  {
    BeforeStops(s, '\n');
    hide Before;
  }

  /** The lines with newlines between them. */
  function Joined(ls: seq<string>): string {
    if ls == [] then "" else if |ls| == 1 then ls[0] else ls[0] + "\n" + Joined(ls[1..])
  }

  lemma {:induction false} JoinedHead(line: string, rest: seq<string>)
    ensures Joined([line] + rest) == if rest == [] then line else line + ("\n" + Joined(rest))
  {
    assert ([line] + rest)[1..] == rest;
    assert line + "\n" + Joined(rest) == line + ("\n" + Joined(rest));
  }

  /** Runs look the same exactly if their exit codes are equal and so are their outputs, up to what is masked. */
  lemma {:induction false} FingerprintTells(code1: string, d1: string, t1: bool, a1: string, s1: string, code2: string,
          d2: string, t2: bool, a2: string, s2: string, isAssertion: string -> bool)
    requires PlainPart(code1) && code1 != "" && PlainPart(d1) && '\n' !in a1
    requires PlainPart(code2) && code2 != "" && PlainPart(d2) && '\n' !in a2
    ensures Observe(Rendered(code1, d1, t1, a1, s1), isAssertion).fingerprint ==
            Observe(Rendered(code2, d2, t2, a2, s2), isAssertion).fingerprint <==>
            code1 == code2 && SameOutput(Lines(s1), Lines(s2), isAssertion)
  {
    hide MaskLines, Lines, RunFingerprint, Rendered, SameOutput, InfraFaultSignature, Contains, HasPrefix;
    RenderedFingerprint(code1, d1, t1, a1, s1, isAssertion);
    RenderedFingerprint(code2, d2, t2, a2, s2, isAssertion);
    LinesMean(s1);
    LinesMean(s2);
    MasksTell(Lines(s1), Lines(s2), isAssertion);
    MasksStart(Lines(s1), isAssertion);
    MasksStart(Lines(s2), isAssertion);
    var x, y := MaskLines(Lines(s1), isAssertion), MaskLines(Lines(s2), isAssertion);
    LineCut(code1, x, code2, y);
    assert "exit " + code1 + x == "exit " + (code1 + x) && "exit " + code2 + y == "exit " + (code2 + y);
    assert ("exit " + (code1 + x))[5..] == code1 + x && ("exit " + (code2 + y))[5..] == code2 + y;
  }
}
