/**
 Texts that are put together with separators, and when they can be taken apart again.
*/
module Texts {

  predicate OccursAt(s: string, sep: string, k: nat) {
    k + |sep| <= |s| && s[k..k + |sep|] == sep
  }

  /**
   Put after s, the separator is the first one: it does not occur in s, nor does s end with a part of
   it that makes it one.
  */
  predicate Delimited(s: string, sep: string) {
    forall k: nat :: k < |s| ==> !OccursAt(s + sep, sep, k)
  }

  /** Delimited parts are told apart from what follows. */
  lemma SplitUnique(a: string, b: string, sep: string, x: string, y: string)
    requires Delimited(a, sep) && Delimited(b, sep)
    ensures a + sep + x == b + sep + y <==> a == b && x == y
  {
    if a + sep + x == b + sep + y {
      NotShorter(a, b, sep, x, y);
      NotShorter(b, a, sep, y, x);
      assert a == (a + sep + x)[..|a|] && b == (b + sep + y)[..|b|];
      assert x == (a + sep + x)[|a| + |sep|..] && y == (b + sep + y)[|b| + |sep|..];
    }
  }

  lemma NotShorter(a: string, b: string, sep: string, x: string, y: string)
    requires a + sep + x == b + sep + y && Delimited(b, sep)
    ensures |a| >= |b|
  {
    if |a| < |b| {
      var t := a + sep + x;
      assert t[|a|..|a| + |sep|] == sep;
      assert (b + sep)[|a|..|a| + |sep|] == t[|a|..|a| + |sep|];
      assert OccursAt(b + sep, sep, |a|);
    }
  }

  /** A delimited part is no longer text with the separator in it. */
  lemma NoSplit(a: string, b: string, sep: string, y: string)
    requires Delimited(a, sep) && sep != ""
    ensures a != b + sep + y
  {
    if a == b + sep + y {
      assert (a + sep)[|b|..|b| + |sep|] == sep;
      assert OccursAt(a + sep, sep, |b|);
    }
  }

  // ---- whitespace ------------------------------------------------------------------------------------------

  predicate IsSpace(c: char) {
    c == ' ' || c == '\t' || c == '\n' || c == '\r' || c == 11 as char || c == 12 as char
  }

  lemma SpacesAre(c: char)
    ensures IsSpace(c) <==> c in " \t\n\r" || c as int == 11 || c as int == 12
  {
  }

  predicate AllSpaces(s: string) {
    forall c :: c in s ==> IsSpace(c)
  }

  /** s without the whitespace at its ends. */
  function TrimSpace(s: string): string {
    if s == "" then ""
    else if IsSpace(s[0]) then TrimSpace(s[1..])
    else if IsSpace(s[|s| - 1]) then TrimSpace(s[..|s| - 1])
    else s
  }

  /** Only whitespace goes, and all of it. */
  lemma {:induction false} TrimMeans(s: string) returns (a: string, b: string)
    ensures s == a + TrimSpace(s) + b && AllSpaces(a) && AllSpaces(b)
    ensures TrimSpace(s) != "" ==> !IsSpace(TrimSpace(s)[0]) && !IsSpace(TrimSpace(s)[|TrimSpace(s)| - 1])
  {
    a, b := "", "";
    if s != "" && IsSpace(s[0]) {
      a, b := TrimMeans(s[1..]);
      a := [s[0]] + a;
      assert s == [s[0]] + s[1..];
    } else if s != "" && IsSpace(s[|s| - 1]) {
      a, b := TrimMeans(s[..|s| - 1]);
      b := b + [s[|s| - 1]];
      assert s == s[..|s| - 1] + [s[|s| - 1]];
    }
  }

  /** A text is blank exactly if it is all whitespace. */
  lemma {:induction false} BlankIff(s: string)
    ensures TrimSpace(s) == "" <==> AllSpaces(s)
  {
    var a, b := TrimMeans(s);
    var t := TrimSpace(s);
    assert t != "" ==> s[|a|] == t[0];
  }

  // ---- capitals and small letters --------------------------------------------------------------------------

  predicate SameLetter(c: char, d: char) {
    c == d || ('A' <= c <= 'Z' && d as int == c as int + 32) || ('A' <= d <= 'Z' && c as int == d as int + 32)
  }

  /** s is t, in capitals or small letters. */
  predicate Spells(s: string, t: string) {
    |s| == |t| && forall i :: 0 <= i < |s| ==> SameLetter(s[i], t[i])
  }

  predicate SpelledAt(s: string, t: string, k: nat) {
    k + |t| <= |s| && Spells(s[k..k + |t|], t)
  }
}
