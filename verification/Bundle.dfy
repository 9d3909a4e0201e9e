/**
 The proof bundle: a directory with the components of a run, a manifest of their digests, the digest of
 the manifest, and perhaps a signature.  Digest, base64, JSON and the signature scheme are parameters
 with the laws that are taken for granted; the manifest text is spelled out as far as the signature
 depends on it.
*/
module Bundle {
  import opened Texts
  import opened Runs
  import opened Generate
  import opened Sorting
  import Fence

  const SCHEMA_VERSION: nat := 2

  datatype Component = Component(name: string, path: string, sha: string)

  datatype Signature = Signature(status: string, publicKey: string, fingerprint: string, value: string)

  /** rest stands for the members of the manifest that neither Create nor Verify looks into. */
  datatype Manifest = Manifest(
    version: nat, runId: string, components: seq<Component>, rest: string, signature: Signature)

  type Dir = map<string, string>

  /** What is used of the cryptography and of the text formats. */
  datatype Crypto = Crypto(
    digest: string -> string,
    encode: string -> string,
    decode: string -> Option<string>,
    publicOf: string -> string,
    sign: (string, string) -> string,
    verify: (string, string, string) -> bool,
    head: (nat, string, seq<Component>, string) -> string,   // the manifest up to its signature
    parse: string -> Option<Manifest>)

  /** Text that needs no escaping in JSON and has neither commas nor spaces. */
  predicate Plain(s: string) {
    forall c :: c in s ==> c != ',' && c != '"' && !IsSpace(c)
  }

  /** The laws: digests and keys tell texts apart, and a signature is good for one text only. */
  ghost predicate Ideal(c: Crypto) {
    && (forall a, b :: c.digest(a) == c.digest(b) ==> a == b)
    && (forall a :: c.digest(a) != "" && Plain(c.digest(a)))
    && (forall a :: c.decode(c.encode(a)) == Some(a) && Plain(c.encode(a)))
    && (forall k :: |c.publicOf(k)| == 32)
    && (forall k, m :: c.encode(c.sign(k, m)) != "" && c.encode(c.publicOf(k)) != "")
    && (forall k, m, m' :: c.verify(c.publicOf(k), m', c.sign(k, m)) <==> m' == m)
    && (forall m: Manifest :: PlainSignature(m.signature) ==> c.parse(Render(c, m)) == Some(m))
  }

  predicate PlainSignature(s: Signature) {
    Plain(s.status) && Plain(s.publicKey) && Plain(s.fingerprint) && Plain(s.value)
  }

  // ---- the text of the manifest ------------------------------------------------------------------------------

  /** Members that are empty are left out. */
  function Optional(key: string, value: string): string {
    if value == "" then "" else ",\"" + key + "\":\"" + value + "\""
  }

  /** The signature comes last, and its value last in it. */
  function Render(c: Crypto, m: Manifest): string {
    Before(c, m) + Optional("value", m.signature.value) + "}}"
  }

  /** The manifest up to where the value of the signature stands. */
  function Before(c: Crypto, m: Manifest): string {
    c.head(m.version, m.runId, m.components, m.rest) + ",\"signature\":{\"signature_status\":\"" +
      m.signature.status + "\"" +
      Optional("public_key", m.signature.publicKey) + Optional("public_key_fingerprint", m.signature.fingerprint)
  }

  /** s with the first occurrence of f taken out. */
  function RemoveFirst(s: string, f: string): string {
    if HasPrefix(s, f) then s[|f|..] else if s == "" then "" else [s[0]] + RemoveFirst(s[1..], f)
  }

  /** Without an occurrence in a, and with no way to straddle the seam, the first one is the one after a. */
  lemma {:induction false} RemovesAfter(a: string, f: string, b: string)
    requires f != "" && f[0] !in f[1..] && !Contains(a, f)
    ensures RemoveFirst(a + f + b, f) == a + b
  {
    hide *;
    var s := a + f + b;
    Unfold(a, f);
    Unfold(s, f);
    if a == "" {
      assert s == f + b;
      IsPrefix(f, b);
    } else {
      NoPrefixAtSeam(a, f, b);
      assert s[0] == a[0] && s[1..] == a[1..] + f + b;
      RemovesAfter(a[1..], f, b);
    }
  }

  lemma NoPrefixAtSeam(a: string, f: string, b: string)
    requires a != "" && f != "" && f[0] !in f[1..] && !HasPrefix(a, f)
    ensures !HasPrefix(a + f + b, f)
  {
    var s := a + f + b;
    if |f| <= |a| {
      assert s[..|f|] == a[..|f|];
    } else {
      assert s[|a|] == f[0] && f[|a|] == f[1..][|a| - 1];
      DiffersAt(s, f, |a|);
    }
  }

  /** With an occurrence in a, an earlier one goes, and the one after a stays. */
  lemma {:induction false} RemovesEarlier(a: string, f: string, b: string) returns (x: string, y: string)
    requires f != "" && f[0] !in f[1..] && Contains(a, f)
    ensures a == x + f + y && RemoveFirst(a + f + b, f) == x + y + f + b
    decreases |a|
  {
    hide *;
    var s := a + f + b;
    Unfold(a, f);
    Unfold(s, f);
    if HasPrefix(a, f) {
      PrefixIs(a, f);
      x, y := "", a[|f|..];
      assert s == f + (y + f + b);
      IsPrefix(f, y + f + b);
    } else {
      assert s[0] == a[0] && s[1..] == a[1..] + f + b;
      NoPrefixAtSeam(a, f, b);
      x, y := RemovesEarlier(a[1..], f, b);
      x := [a[0]] + x;
      assert a == [a[0]] + a[1..];
    }
  }

  lemma {:induction false} Unfold(s: string, f: string)
    ensures Contains(s, f) <==> HasPrefix(s, f) || (s != "" && Contains(s[1..], f))
    ensures RemoveFirst(s, f) == if HasPrefix(s, f) then s[|f|..] else if s == "" then ""
            else [s[0]] + RemoveFirst(s[1..], f)
  {
  }

  lemma PrefixIs(s: string, f: string)
    requires HasPrefix(s, f)
    ensures |f| <= |s| && s == f + s[|f|..]
  {
  }

  lemma IsPrefix(f: string, t: string)
    ensures HasPrefix(f + t, f) && (f + t)[|f|..] == t
  {
    assert (f + t)[..|f|] == f;
  }

  /**
   Taking the value out of the text gives back what was signed, exactly if the same key and value do not
   stand further up.  (The text before the value never ends with such a member, so taking out another
   occurrence never gives the same text.)
  */
  lemma {:induction false} RemoveIffNoOther(a: string, f: string, b: string)
    requires f != "" && f[0] !in f[1..] && !EndsWith(a, f)
    ensures RemoveFirst(a + f + b, f) == a + b <==> !Contains(a, f)
  {
    if !Contains(a, f) {
      RemovesAfter(a, f, b);
    } else {
      var x, y := RemovesEarlier(a, f, b);
      if x + y + f + b == a + b {
        Shifted(a, f, b, x, y);
        assert false;
      }
    }
  }

  lemma Shifted(a: string, f: string, b: string, x: string, y: string)
    requires a == x + f + y && x + y + f + b == a + b
    ensures EndsWith(a, f)
  {
    assert (x + y + f + b)[..|a|] == x + y + f;
    assert (a + b)[..|a|] == a;
    assert a[|a| - |f|..] == f;
  }

  lemma DiffersAtEnd(a: string, f: string, k: nat)
    requires |f| <= |a| && k < |f| && a[|a| - |f| + k] != f[k]
    ensures !EndsWith(a, f)
  {
    assert a[|a| - |f|..][k] == a[|a| - |f| + k];
  }

  predicate EndsWith(a: string, f: string) {
    |f| <= |a| && a[|a| - |f|..] == f
  }

  /** A rendered member has its comma in front, and no other. */
  lemma OneComma(key: string, value: string)
    requires value != "" && Plain(value) && ',' !in key
    ensures var f := Optional(key, value); f != "" && f[0] == ',' && f[0] !in f[1..]
  {
    var f := Optional(key, value);
    assert f[1..] == "\"" + key + "\":\"" + value + "\"";
  }

  /** The fingerprint, which comes right before the value, is not mistaken for it. */
  lemma FingerprintIsNoValue(a: string, fp: string, value: string)
    requires fp != "" && value != "" && Plain(fp) && Plain(value)
    ensures !EndsWith(a + Optional("public_key_fingerprint", fp), Optional("value", value))
  {
    var g, f := Optional("public_key_fingerprint", fp), Optional("value", value);
    OneComma("public_key_fingerprint", fp);
    OneComma("value", value);
    assert g[2] == 'p' && f[2] == 'v';
    hide Optional, Plain;
    var s := a + g;
    if |f| < |g| {
      assert s[|s| - |f|] == g[|g| - |f|] == g[1..][|g| - |f| - 1];
      DiffersAtEnd(s, f, 0);
    } else if |g| < |f| <= |s| {
      assert s[|s| - |g|] == g[0] && f[|f| - |g|] == f[1..][|f| - |g| - 1];
      DiffersAtEnd(s, f, |f| - |g|);
    } else if |f| == |g| {
      assert s[|s| - |f| + 2] == g[2];
      DiffersAtEnd(s, f, 2);
    }
  }

  /** The member that carries the value. */
  function ValueMember(value: string): string {
    Optional("value", value)
  }

  /** What is signed: the manifest without the value. */
  function Signable(c: Crypto, m: Manifest): string {
    Render(c, m.(signature := m.signature.(value := "")))
  }

  /** Taking the value out of a signed manifest gives back what was signed, exactly if no other member looks like it. */
  lemma SignableIsRecovered(c: Crypto, m: Manifest)
    requires m.signature.fingerprint != "" && m.signature.value != "" && Plain(m.signature.fingerprint)
             && Plain(m.signature.value)
    ensures RemoveFirst(Render(c, m), ValueMember(m.signature.value)) == Signable(c, m) <==>
            !Contains(Before(c, m), ValueMember(m.signature.value))
  {
    var f := ValueMember(m.signature.value);
    var a := c.head(m.version, m.runId, m.components, m.rest) + ",\"signature\":{\"signature_status\":\"" +
      m.signature.status + "\"" +
             Optional("public_key", m.signature.publicKey);
    assert Before(c, m) == a + Optional("public_key_fingerprint", m.signature.fingerprint);
    FingerprintIsNoValue(a, m.signature.fingerprint, m.signature.value);
    OneComma("value", m.signature.value);
    assert Before(c, m.(signature := m.signature.(value := ""))) == Before(c, m);
    assert Signable(c, m) == Before(c, m) + "}}";
    assert Render(c, m) == Before(c, m) + f + "}}";
    hide Before, Signable, Optional, Plain, Contains, RemoveFirst;
    RemoveIffNoOther(Before(c, m), f, "}}");
  }

  // ---- Create ---------------------------------------------------------------------------------------------------

  datatype Key = NoKey | WrongLength | Key(secret: string)

  datatype Patch = NoPatch | Unreadable | Patch(data: string)

  /**
   initial are the components the manifest already lists; transcript is None when there is no path, or
   it cannot be read.
  */
  datatype Input = Input(
    runId: string, rest: string, initial: seq<Component>, transcript: Option<string>, patch: Patch, baseline: string,
      closing: string,
    key: Key)

  datatype Created = Created(dir: Dir, sha: string)

  function NameOf(c: Component): string { c.name }

  const TRANSCRIPT := "transcript"
  const PATCH := "patch"
  const BASELINE := "verify-baseline-output"
  const CLOSING := "verify-closing-output"
  const MANIFEST := "manifest.json"
  const SUM := "manifest.sha256"

  lemma NamesDiffer()
    ensures TRANSCRIPT != PATCH && TRANSCRIPT != BASELINE && TRANSCRIPT != CLOSING
    ensures PATCH != BASELINE && PATCH != CLOSING && BASELINE != CLOSING
    ensures MANIFEST !in {TRANSCRIPT, PATCH, BASELINE, CLOSING, SUM} && SUM !in {TRANSCRIPT, PATCH, BASELINE, CLOSING}
    ensures forall n :: n in {TRANSCRIPT, PATCH, BASELINE, CLOSING} ==> IsPlainName(n)
  {
    assert TRANSCRIPT[0] == 't' && PATCH[0] == 'p' && BASELINE[7] == 'b' && CLOSING[7] == 'c';
    assert MANIFEST[0] == 'm' && SUM[0] == 'm' && BASELINE[0] == 'v' && CLOSING[0] == 'v' && MANIFEST[9] == 'j'
           && SUM[9] == 's';
  }

  /** A name of a file right in the directory. */
  predicate IsPlainName(p: string) {
    p != "" && '/' !in p
  }

  function NamesOf(comps: seq<Component>): set<string> {
    set x | x in comps :: x.name
  }

  /** The components written so far: each file is there, and its digest is on record. */
  ghost predicate Recorded(c: Crypto, dir: Dir, comps: seq<Component>) {
    && DistinctBy(comps, NameOf) && NamesOf(comps) == dir.Keys
    && forall i :: 0 <= i < |comps| ==>
         comps[i].path == comps[i].name && comps[i].path in dir && IsPlainName(comps[i].path)
         && comps[i].path != MANIFEST && comps[i].path != SUM && comps[i].sha == c.digest(dir[comps[i].path])
  }

  method AddComponent(c: Crypto, dir0: Dir, comps0: seq<Component>, name: string, data: string)
    returns (dir: Dir, comps: seq<Component>)
    ensures var p := Fence.Base(name); dir == dir0[p := data] && comps == comps0 + [Component(name, p, c.digest(data))]
  {
    var p := Fence.Base(name);
    dir := dir0[p := data];
    comps := comps0 + [Component(name, p, c.digest(data))];
  }

  /** A component under a new plain name joins the record. */
  lemma {:induction false} OneMoreRecorded(c: Crypto, dir: Dir, comps: seq<Component>, name: string, data: string)
    requires Recorded(c, dir, comps) && name !in dir && IsPlainName(name) && name != MANIFEST && name != SUM
    ensures Recorded(c, dir[name := data], comps + [Component(name, name, c.digest(data))]) && Fence.Base(name) == name
  {
    OneMoreName(comps, Component(name, name, c.digest(data)));
    assert forall i :: 0 <= i < |comps| ==> comps[i].name in NamesOf(comps);
  }

  lemma OneMoreName(comps: seq<Component>, x: Component)
    ensures NamesOf(comps + [x]) == NamesOf(comps) + {x.name}
  {
    assert x in comps + [x];
    assert forall y :: y in comps + [x] <==> y in comps || y == x;
  }

  /** The files of the components, and nothing else. */
  function Files(inp: Input): Dir
    requires inp.transcript.Some?
  {
    (if inp.patch.Patch? then map[PATCH := inp.patch.data] else map[]) +
    map[TRANSCRIPT := inp.transcript.value, BASELINE := inp.baseline, CLOSING := inp.closing]
  }

  /** The input has all that a bundle needs. */
  predicate Complete(inp: Input) {
    inp.runId != "" && inp.transcript.Some? && !inp.patch.Unreadable? && !inp.key.WrongLength?
  }

  /** The components of the files, in the order they are added. */
  function Added(c: Crypto, inp: Input): seq<Component>
    requires Complete(inp)
  {
    [Component(TRANSCRIPT, TRANSCRIPT, c.digest(inp.transcript.value))] +
    (if inp.patch.Patch? then [Component(PATCH, PATCH, c.digest(inp.patch.data))] else []) +
    [Component(BASELINE, BASELINE, c.digest(inp.baseline))] + [Component(CLOSING, CLOSING, c.digest(inp.closing))]
  }

  method Components(c: Crypto, inp: Input) returns (dir: Dir, comps: seq<Component>)
    requires Complete(inp)
    ensures dir == Files(inp) && comps == inp.initial + Added(c, inp)
    ensures Recorded(c, Files(inp), Added(c, inp))
  {
    hide *;
    CompleteMeans(inp);
    NamesDiffer();
    NothingRecorded(c);
    FilesOneByOne(inp);
    AddedOneByOne(c, inp);
    ghost var added: seq<Component> := [];
    dir, comps, added := AddNext(c, map[], inp.initial, TRANSCRIPT, inp.transcript.value, inp.initial, added);
    if inp.patch.Patch? {
      dir, comps, added := AddNext(c, dir, comps, PATCH, inp.patch.data, inp.initial, added);
    }
    dir, comps, added := AddNext(c, dir, comps, BASELINE, inp.baseline, inp.initial, added);
    dir, comps, added := AddNext(c, dir, comps, CLOSING, inp.closing, inp.initial, added);
  }

  method AddNext(c: Crypto, dir0: Dir, comps0: seq<Component>, name: string, data: string,
          ghost initial: seq<Component>, ghost added0: seq<Component>)
    returns (dir: Dir, comps: seq<Component>, ghost added: seq<Component>)
    requires comps0 == initial + added0 && Recorded(c, dir0, added0)
    requires name !in dir0 && IsPlainName(name) && name != MANIFEST && name != SUM
    ensures comps == initial + added && Recorded(c, dir, added)
    ensures dir == dir0[name := data] && added == added0 + [Component(name, name, c.digest(data))]
  {
    hide *;
    OneMoreRecorded(c, dir0, added0, name, data);
    dir, comps := AddComponent(c, dir0, comps0, name, data);
    added := added0 + [Component(name, name, c.digest(data))];
  }

  lemma AddedOneByOne(c: Crypto, inp: Input)
    requires Complete(inp)
    ensures var a := [] + [Component(TRANSCRIPT, TRANSCRIPT, c.digest(inp.transcript.value))];
            var b := if inp.patch.Patch? then a + [Component(PATCH, PATCH, c.digest(inp.patch.data))] else a;
            Added(c, inp) ==
              b + [Component(BASELINE, BASELINE, c.digest(inp.baseline))] +
                [Component(CLOSING, CLOSING, c.digest(inp.closing))]
  {
    hide TRANSCRIPT, PATCH, BASELINE, CLOSING;
  }

  lemma CompleteMeans(inp: Input)
    requires Complete(inp)
    ensures inp.transcript.Some? && !inp.patch.Unreadable?
  {
  }

  lemma FilesOneByOne(inp: Input)
    requires Complete(inp)
    ensures var t: Dir := map[][TRANSCRIPT := inp.transcript.value];
            var u := if inp.patch.Patch? then t[PATCH := inp.patch.data] else t;
            Files(inp) == u[BASELINE := inp.baseline][CLOSING := inp.closing]
  {
    NamesDiffer();
    hide TRANSCRIPT, PATCH, BASELINE, CLOSING;
  }

  lemma NothingRecorded(c: Crypto)
    ensures Recorded(c, map[], [])
  {
  }

  /** Writes the bundle, or nothing. */
  method Create(c: Crypto, inp: Input) returns (r: Option<Created>, ghost m: Manifest)
    requires Ideal(c)
    ensures r.Some? <==> Complete(inp)
    ensures r.Some? <==> inp.runId != "" && inp.transcript.Some? && !inp.patch.Unreadable? && !inp.key.WrongLength?
    ensures r.Some? ==> Written(c, inp, m, r.value)
  {
    m := Manifest(0, "", [], "", Signature("", "", "", ""));
    if !Complete(inp) {
      return None, m;
    }
    var files, comps := Components(c, inp);
    var sorted := SortBy(comps, NameOf);
    var text := Manifest(SCHEMA_VERSION, inp.runId, sorted, inp.rest, Signature("unsigned", "", "", ""));
    if inp.key.Key? {
      var pub := c.publicOf(inp.key.secret);
      text := text.(signature := Signature("signed", c.encode(pub), c.digest(pub), ""));
      text := text.(signature := text.signature.(value := c.encode(c.sign(inp.key.secret, Render(c, text)))));
    }
    m := text;
    var body := Render(c, text);
    var sha := c.digest(body);
    hide *;
    r := Some(Created(files[MANIFEST := body + "\n"][SUM := sha + "  manifest.json\n"], sha));
  }

  /** The signature that a key gives; without one the bundle is unsigned. */
  function SignatureBy(c: Crypto, key: Key, m: Manifest): Signature {
    if key.Key? then
      Signature("signed", c.encode(c.publicOf(key.secret)), c.digest(c.publicOf(key.secret)),
                c.encode(c.sign(key.secret, Signable(c, m))))
    else Signature("unsigned", "", "", "")
  }

  /** The components of the manifest: the initial ones and those of the files, in the order of their names. */
  ghost predicate Listed(c: Crypto, inp: Input, comps: seq<Component>)
    requires Complete(inp)
  {
    && NonDecreasing(comps, NameOf) && multiset(comps) == multiset(inp.initial + Added(c, inp))
    && (DistinctBy(inp.initial + Added(c, inp), NameOf) ==> Increasing(comps, NameOf))
  }

  lemma ListedMembers(c: Crypto, inp: Input, comps: seq<Component>)
    requires Complete(inp) && Listed(c, inp, comps)
    ensures forall x :: x in comps <==> x in inp.initial || x in Added(c, inp)
  {
    hide Added, NonDecreasing, Increasing, DistinctBy;
    assert forall x :: x in comps <==> x in multiset(comps);
    assert forall x :: x in inp.initial + Added(c, inp) <==> x in multiset(inp.initial + Added(c, inp));
  }

  /**
   What is on disk afterwards: the components, recorded in order of their names, under a manifest that
   is digested and signed.
  */
  ghost predicate Written(c: Crypto, inp: Input, m: Manifest, out: Created) {
    && Complete(inp)
    && m.version == SCHEMA_VERSION && m.runId == inp.runId && m.rest == inp.rest
    && Listed(c, inp, m.components) && Recorded(c, Files(inp), Added(c, inp))
    && m.signature == SignatureBy(c, inp.key, m)
    && out.sha == c.digest(Render(c, m))
    && out.dir == Files(inp)[MANIFEST := Render(c, m) + "\n"][SUM := out.sha + "  manifest.json\n"]
  }

  // ---- Verify ---------------------------------------------------------------------------------------------------

  function TrimNewline(s: string): string {
    if s != "" && s[|s| - 1] == '\n' then s[..|s| - 1] else s
  }

  function SkipSpaces(s: string): string {
    if s != "" && IsSpace(s[0]) then SkipSpaces(s[1..]) else s
  }

  function UpToSpace(s: string): string {
    if s == "" || IsSpace(s[0]) then "" else [s[0]] + UpToSpace(s[1..])
  }

  /** The first field of a line, "" if there is none. */
  function FirstField(s: string): string {
    UpToSpace(SkipSpaces(s))
  }

  predicate ComponentGood(c: Crypto, dir: Dir, x: Component) {
    IsPlainName(x.path) && x.path in dir && c.digest(dir[x.path]) == x.sha
  }

  /** The signed text is rebuilt by taking out the value as it is written. */
  predicate SignatureGood(c: Crypto, body: string, s: Signature) {
    if s.status == "signed" then
      var sig, pub := c.decode(s.value), c.decode(s.publicKey);
      && sig.Some? && pub.Some? && |pub.value| == 32 && c.digest(pub.value) == s.fingerprint
      && c.verify(pub.value, RemoveFirst(body, ",\"value\":\"" + s.value + "\""), sig.value)
    else s.status == "unsigned"
  }

  /** What a bundle must be to be accepted. */
  predicate Accepts(c: Crypto, dir: Dir) {
    MANIFEST in dir && SUM in dir &&
    var body := TrimNewline(dir[MANIFEST]);
    var m := c.parse(body);
    && FirstField(dir[SUM]) != "" && FirstField(dir[SUM]) == c.digest(body)
    && m.Some? && (m.value.version == 1 || m.value.version == SCHEMA_VERSION)
    && (forall i :: 0 <= i < |m.value.components| ==> ComponentGood(c, dir, m.value.components[i]))
    && SignatureGood(c, body, m.value.signature)
  }

  datatype Verified = Verified(sha: string, evidence: seq<string>, status: string)

  method Verify(c: Crypto, dir: Dir) returns (r: Option<Verified>)
    ensures r.Some? <==> Accepts(c, dir)
    ensures r.Some? ==>
              var m := c.parse(TrimNewline(dir[MANIFEST])).value;
              && r.value.sha == c.digest(TrimNewline(dir[MANIFEST])) && r.value.status == m.signature.status
              && |r.value.evidence| == |m.components|
              && forall i :: 0 <= i < |m.components| ==> r.value.evidence[i] == m.components[i].name
  {
    hide ComponentGood, RemoveFirst, FirstField;
    if MANIFEST !in dir {
      return None;
    }
    var body := TrimNewline(dir[MANIFEST]);
    var sha := c.digest(body);
    if SUM !in dir || FirstField(dir[SUM]) == "" || FirstField(dir[SUM]) != sha {
      return None;
    }
    var parsed := c.parse(body);
    if parsed.None? {
      return None;
    }
    var m := parsed.value;
    if m.version != 1 && m.version != SCHEMA_VERSION {
      return None;
    }
    var evidence: seq<string> := [];
    for i := 0 to |m.components|
      invariant |evidence| == i && forall k :: 0 <= k < i ==> evidence[k] == m.components[k].name
      invariant forall k :: 0 <= k < i ==> ComponentGood(c, dir, m.components[k])
    {
      if !ComponentGood(c, dir, m.components[i]) {
        return None;
      }
      evidence := evidence + [m.components[i].name];
    }
    if !SignatureGood(c, body, m.signature) {
      return None;
    }
    return Some(Verified(sha, evidence, m.signature.status));
  }

  // ---- the round trip ---------------------------------------------------------------------------------------------

  lemma SumField(c: Crypto, sha: string)
    requires sha != "" && Plain(sha)
    ensures FirstField(sha + "  manifest.json\n") == sha
  {
    assert IsSpace(' ');
    var rest := " manifest.json\n";
    assert sha + "  manifest.json\n" == sha + [' '] + rest;
    assert sha[0] in sha;
    FieldEnds(sha, ' ', rest);
  }

  lemma {:induction false} FieldEnds(a: string, sp: char, rest: string)
    requires Plain(a) && IsSpace(sp)
    ensures UpToSpace(a + [sp] + rest) == a
  {
    if a != "" {
      assert a[0] in a && forall c :: c in a[1..] ==> c in a;
      assert (a + [sp] + rest)[1..] == a[1..] + [sp] + rest;
      FieldEnds(a[1..], sp, rest);
    }
  }

  /** Without the final newline, the manifest file is the rendered manifest. */
  lemma BodyIsRendered(c: Crypto, inp: Input, m: Manifest, out: Created)
    requires Written(c, inp, m, out)
    ensures MANIFEST in out.dir && SUM in out.dir && TrimNewline(out.dir[MANIFEST]) == Render(c, m)
    ensures out.dir[SUM] == out.sha + "  manifest.json\n" && out.sha == c.digest(Render(c, m))
    ensures forall p :: p in Files(inp) && p != MANIFEST && p != SUM ==> p in out.dir && out.dir[p] == Files(inp)[p]
  {
    NamesDiffer();
    hide Render, Recorded, Files, SignatureBy, MANIFEST, SUM;
    assert (Render(c, m) + "\n")[..|Render(c, m)|] == Render(c, m);
  }

  /** The components of the files are good; whether the initial ones are is up to what is on disk under their paths. */
  lemma ComponentsGood(c: Crypto, inp: Input, m: Manifest, out: Created)
    requires Written(c, inp, m, out)
    ensures (forall i :: 0 <= i < |m.components| ==> ComponentGood(c, out.dir, m.components[i])) <==>
            InitialGood(c, inp, out.dir)
  {
    BodyIsRendered(c, inp, m, out);
    ListedMembers(c, inp, m.components);
    AddedGood(c, inp, m, out);
    hide Render, Files, SignatureBy, MANIFEST, SUM, IsPlainName, Added, ComponentGood, Listed, Recorded;
    forall x | x in inp.initial
      ensures exists i :: 0 <= i < |m.components| && m.components[i] == x
    {
      assert x in m.components;
    }
    forall i | 0 <= i < |m.components|
      ensures m.components[i] in inp.initial || m.components[i] in Added(c, inp)
    {
      assert m.components[i] in m.components;
    }
  }

  lemma AddedGood(c: Crypto, inp: Input, m: Manifest, out: Created)
    requires Written(c, inp, m, out)
    ensures forall x :: x in Added(c, inp) ==> ComponentGood(c, out.dir, x)
  {
    BodyIsRendered(c, inp, m, out);
    hide Render, Files, SignatureBy, MANIFEST, SUM, IsPlainName, Added, Listed;
  }

  /** Whatever the manifest listed before names files of this bundle, with the right digests. */
  predicate InitialGood(c: Crypto, inp: Input, dir: Dir) {
    forall x :: x in inp.initial ==> ComponentGood(c, dir, x)
  }

  /**
   The signature of a bundle that was just written is good, unless another member of the manifest looks
   like its value.
  */
  lemma SignatureHolds(c: Crypto, inp: Input, m: Manifest, out: Created)
    requires Ideal(c) && Written(c, inp, m, out)
    ensures SignatureGood(c, Render(c, m), m.signature) <==>
            !inp.key.Key? || !Contains(Before(c, m), ValueMember(m.signature.value))
  {
    hide Render, Files, Before, Contains, RemoveFirst, Recorded, Plain;
    if inp.key.Key? {
      SignableKeeps(c, m, m.signature.value);
      SignableIsRecovered(c, m);
      assert ValueMember(m.signature.value) == ",\"value\":\"" + m.signature.value + "\"";
    } else {
      assert "unsigned"[0] != "signed"[0];
    }
  }

  lemma SignableKeeps(c: Crypto, m: Manifest, v: string)
    ensures Signable(c, m.(signature := m.signature.(value := v))) == Signable(c, m)
  {
  }

  lemma IsPlain(c: Crypto, key: Key, m: Manifest)
    requires Ideal(c)
    ensures PlainSignature(SignatureBy(c, key, m))
  {
    assert Plain("") && Plain("signed") && Plain("unsigned");
    hide Plain, Signable, Render;
  }

  /**
   Verify accepts what Create wrote exactly under that condition, always when there is no key, if the
   initial components are good.
  */
  lemma RoundTrip(c: Crypto, inp: Input, m: Manifest, out: Created)
    requires Ideal(c) && Written(c, inp, m, out)
    ensures Accepts(c, out.dir) <==>
            InitialGood(c, inp, out.dir) && (!inp.key.Key? || !Contains(Before(c, m), ValueMember(m.signature.value)))
  {
    BodyIsRendered(c, inp, m, out);
    ComponentsGood(c, inp, m, out);
    SignatureHolds(c, inp, m, out);
    hide Render, Files, Before, Contains, FirstField, SignatureGood, ComponentGood, InitialGood, MANIFEST, SUM, Listed,
      Added, Recorded;
    SumField(c, out.sha);
    IsPlain(c, inp.key, m);
    assert c.parse(Render(c, m)) == Some(m);
  }

  /**
   The evidence of an accepted bundle is the components by name, in order; without initial ones it
   names exactly the files.
  */
  lemma EvidenceIsSorted(c: Crypto, inp: Input, m: Manifest, out: Created, r: Verified)
    requires Ideal(c) && Written(c, inp, m, out)
    requires |r.evidence| == |m.components| && forall i :: 0 <= i < |m.components| ==>
               r.evidence[i] == m.components[i].name
    ensures forall i, j :: 0 <= i < j < |r.evidence| ==> !Less(r.evidence[j], r.evidence[i])
    ensures forall n :: n in r.evidence <==> n in Files(inp) || n in NamesOf(inp.initial)
    ensures inp.initial == [] ==> forall i, j :: 0 <= i < j < |r.evidence| ==> Less(r.evidence[i], r.evidence[j])
  {
    hide *;
    WrittenLists(c, inp, m, out);
    ListedOrder(c, inp, m.components);
    EvidenceNames(c, inp, m.components, r.evidence);
  }

  lemma WrittenLists(c: Crypto, inp: Input, m: Manifest, out: Created)
    requires Written(c, inp, m, out)
    ensures Complete(inp) && inp.transcript.Some? && Listed(c, inp, m.components)
            && Recorded(c, Files(inp), Added(c, inp))
  {
    hide Files, Render, SignatureBy, Listed, Recorded, Added;
  }

  lemma ListedOrder(c: Crypto, inp: Input, comps: seq<Component>)
    requires Complete(inp) && Listed(c, inp, comps) && Recorded(c, Files(inp), Added(c, inp))
    ensures forall i, j :: 0 <= i < j < |comps| ==> !Less(comps[j].name, comps[i].name)
    ensures inp.initial == [] ==> forall i, j :: 0 <= i < j < |comps| ==> Less(comps[i].name, comps[j].name)
  {
    AddedNames(c, inp);
    hide Added, Files, Recorded, Less;
    assert [] + Added(c, inp) == Added(c, inp);
    assert forall i :: 0 <= i < |comps| ==> NameOf(comps[i]) == comps[i].name;
  }

  lemma EvidenceNames(c: Crypto, inp: Input, comps: seq<Component>, evidence: seq<string>)
    requires Complete(inp) && Listed(c, inp, comps) && Recorded(c, Files(inp), Added(c, inp))
    requires |evidence| == |comps| && forall i :: 0 <= i < |comps| ==> evidence[i] == comps[i].name
    ensures forall n :: n in evidence <==> n in Files(inp) || n in NamesOf(inp.initial)
  {
    ListedMembers(c, inp, comps);
    AddedNames(c, inp);
    hide Listed, Files, Added, Recorded;
    forall n | n in Files(inp) || n in NamesOf(inp.initial) ensures n in evidence {
      var x :| (x in inp.initial || x in Added(c, inp)) && x.name == n;
      assert x in comps;
    }
    forall i | 0 <= i < |evidence| ensures evidence[i] in Files(inp) || evidence[i] in NamesOf(inp.initial) {
      assert comps[i] in comps;
    }
  }

  lemma AddedNames(c: Crypto, inp: Input)
    requires Complete(inp) && Recorded(c, Files(inp), Added(c, inp))
    ensures forall n :: n in Files(inp) <==> exists x :: x in Added(c, inp) && x.name == n
    ensures forall x :: x in Added(c, inp) ==> x.name in Files(inp)
    ensures DistinctBy(Added(c, inp), NameOf)
  {
    hide Files, Added, IsPlainName, MANIFEST, SUM;
    assert forall x :: x in Added(c, inp) ==> x.name in NamesOf(Added(c, inp));
  }

  // ---- tampering --------------------------------------------------------------------------------------

  /** Two accepted bundles with the same manifest have the same components, byte for byte. */
  lemma ManifestFixesComponents(c: Crypto, dir1: Dir, dir2: Dir)
    requires Ideal(c) && Accepts(c, dir1) && Accepts(c, dir2) && dir1[MANIFEST] == dir2[MANIFEST]
    ensures var m := c.parse(TrimNewline(dir1[MANIFEST])).value;
            forall i :: 0 <= i < |m.components| ==> dir1[m.components[i].path] == dir2[m.components[i].path]
  {
    hide SignatureGood, FirstField, MANIFEST, SUM, TrimNewline;
    var m := c.parse(TrimNewline(dir1[MANIFEST])).value;
    forall i | 0 <= i < |m.components| ensures dir1[m.components[i].path] == dir2[m.components[i].path] {
      assert ComponentGood(c, dir1, m.components[i]) && ComponentGood(c, dir2, m.components[i]);
    }
  }

  /** So changing or deleting the file of a component makes Verify refuse the bundle. */
  lemma TamperingShows(c: Crypto, dir: Dir, path: string, data: string)
    requires Ideal(c) && Accepts(c, dir) && path != MANIFEST && path != SUM
    requires exists x :: x in c.parse(TrimNewline(dir[MANIFEST])).value.components && x.path == path
    requires path in dir && data != dir[path]
    ensures !Accepts(c, dir[path := data]) && !Accepts(c, dir - {path})
  {
    hide SignatureGood, FirstField, MANIFEST, SUM, TrimNewline;
    var m := c.parse(TrimNewline(dir[MANIFEST])).value;
    var x :| x in m.components && x.path == path;
    var i :| 0 <= i < |m.components| && m.components[i] == x;
    var changed, gone := dir[path := data], dir - {path};
    assert changed[MANIFEST] == dir[MANIFEST] && gone[MANIFEST] == dir[MANIFEST];
    assert ComponentGood(c, dir, m.components[i]);
    assert !ComponentGood(c, changed, m.components[i]) && !ComponentGood(c, gone, m.components[i]);
  }

  /**
   A signature is good for one text: an accepted manifest that carries it, with the key it was made
   with, holds that text.
  */
  lemma SignatureFixesText(c: Crypto, dir: Dir, secret: string, text: string)
    requires Ideal(c) && Accepts(c, dir)
    requires var s := c.parse(TrimNewline(dir[MANIFEST])).value.signature;
             s.status == "signed" && s.publicKey == c.encode(c.publicOf(secret))
               && s.value == c.encode(c.sign(secret, text))
    ensures var body := TrimNewline(dir[MANIFEST]);
            RemoveFirst(body, ",\"value\":\"" + c.parse(body).value.signature.value + "\"") == text
  {
    hide RemoveFirst, FirstField, TrimNewline, MANIFEST, SUM, ComponentGood;
  }
}
