/**
 The fence: which paths of the workspace are read-only, the snapshot of the files behind it, what has
 drifted since, and the undo.  A workspace is a map from slash-separated relative path to bytes; a
 directory exists as far as there is a file below it.  A digest is injective, so it is kept as the
 bytes it digests.
*/
module Fence {
  import opened Texts
  import opened Runs
  import opened Generate
  import opened Sorting

  type Workspace = map<string, string>

  // ---- patterns -----------------------------------------------------------------------------------------

  predicate HasSuffix(s: string, t: string) {
    |t| <= |s| && s[|s| - |t|..] == t
  }

  /** The last component of a path. */
  function Base(p: string): string
    decreases |p|
  {
    if '/' in p then
      var d := Before(p, '/');
      assert |d| < |p| by { BeforeStops(p, '/'); }
      Base(p[|d| + 1..])
    else p
  }

  datatype Glob = Blank | Tree(dir: string) | Bare(g: string) | Slashed(g: string)

  /** The three shapes of a pattern, already trimmed. */
  function Shape(g: string): Glob {
    if g == "" then Blank
    else if HasSuffix(g, "/**") then Tree(g[..|g| - 3])
    else if '/' !in g then Bare(g)
    else Slashed(g)
  }

  /** A pattern of the denylist reaches any depth. */
  predicate Fences(g: string, p: string, glob: (string, string) -> bool) {
    match Shape(g)
    case Blank => false
    case Tree(dir) => HasPrefix(p, dir + "/") || Contains(p, "/" + dir + "/")
    case Bare(b) => glob(b, Base(p))
    case Slashed(s) => glob(s, p)
  }

  /** A pattern of the allowlist is anchored at the root. */
  predicate Admits(g: string, p: string, glob: (string, string) -> bool) {
    match Shape(g)
    case Blank => false
    case Tree(dir) => HasPrefix(p, dir + "/")
    case Bare(b) => '/' !in p && glob(b, p)
    case Slashed(s) => glob(s, p)
  }

  method MatchesFence(globs: seq<string>, p: string, glob: (string, string) -> bool) returns (r: bool)
    ensures r <==> exists g :: g in globs && Fences(g, p, glob)
  {
    hide Contains;
    for k := 0 to |globs|
      invariant forall j :: 0 <= j < k ==> !Fences(globs[j], p, glob)
    {
      var g := globs[k];
      assert g in globs;
      match Shape(g) {
        case Blank =>
        case Tree(dir) =>
          if HasPrefix(p, dir + "/") || Contains(p, "/" + dir + "/") {
            return true;
          }
        case Bare(b) =>
          if glob(b, Base(p)) {
            return true;
          }
        case Slashed(s) =>
          if glob(s, p) {
            return true;
          }
      }
    }
    return false;
  }

  method MatchesScope(globs: seq<string>, p: string, glob: (string, string) -> bool) returns (r: bool)
    ensures r <==> exists g :: g in globs && Admits(g, p, glob)
  {
    for k := 0 to |globs|
      invariant forall j :: 0 <= j < k ==> !Admits(globs[j], p, glob)
    {
      var g := globs[k];
      assert g in globs;
      match Shape(g) {
        case Blank =>
        case Tree(dir) =>
          if HasPrefix(p, dir + "/") {
            return true;
          }
        case Bare(b) =>
          if '/' !in p {
            if glob(b, p) {
              return true;
            }
          }
        case Slashed(s) =>
          if glob(s, p) {
            return true;
          }
      }
    }
    return false;
  }

  /** The last component is what follows the last slash, or all of it. */
  lemma {:induction false} BaseMeans(p: string)
    ensures '/' !in Base(p) && ('/' !in p ==> Base(p) == p)
    ensures '/' in p ==> |Base(p)| < |p| && p[|p| - |Base(p)|..] == Base(p) && p[|p| - |Base(p)| - 1] == '/'
    decreases |p|
  {
    if '/' in p {
      BeforeStops(p, '/');
      var rest := p[|Before(p, '/')| + 1..];
      BaseMeans(rest);
    }
  }

  /** dir stands in p as a whole component or several, with something after it, at place k. */
  predicate DirAt(p: string, dir: string, k: nat) {
    OccursAt(p, dir + "/", k) && (k == 0 || p[k - 1] == '/')
  }

  lemma SlashBefore(p: string, t: string, k: nat)
    ensures OccursAt(p, "/" + t, k) <==> k < |p| && p[k] == '/' && OccursAt(p, t, k + 1)
  {
    if k + 1 + |t| <= |p| {
      var u := p[k..k + 1 + |t|];
      assert u == [p[k]] + p[k + 1..k + 1 + |t|];
      assert ("/" + t)[1..] == t && u[1..] == p[k + 1..k + 1 + |t|];
    }
  }

  /**
   A tree pattern fences exactly what lies below a directory of that name, at any depth, and admits
   what does at the root.
  */
  lemma TreeMeans(dir: string, p: string, glob: (string, string) -> bool)
    ensures Fences(dir + "/**", p, glob) <==> exists k: nat :: DirAt(p, dir, k)
    ensures Admits(dir + "/**", p, glob) <==> DirAt(p, dir, 0)
  {
    hide Contains;
    var g := dir + "/**";
    assert HasSuffix(g, "/**") && g[..|g| - 3] == dir;
    ContainsIff(p, "/" + dir + "/");
    assert HasPrefix(p, dir + "/") <==> DirAt(p, dir, 0);
    forall k: nat
      ensures OccursAt(p, "/" + dir + "/", k) <==> k < |p| && p[k] == '/' && OccursAt(p, dir + "/", k + 1)
    {
      SlashBefore(p, dir + "/", k);
      assert "/" + dir + "/" == "/" + (dir + "/");
    }
    forall k: nat | DirAt(p, dir, k) && k > 0
      ensures OccursAt(p, "/" + dir + "/", k - 1)
    {
    }
    forall k: nat | OccursAt(p, "/" + dir + "/", k)
      ensures DirAt(p, dir, k + 1)
    {
    }
  }

  /**
   A pattern without a slash is matched against the last component, one with a slash against the path;
   a blank one matches nothing.
  */
  lemma {:induction false} GlobMeans(g: string, p: string, glob: (string, string) -> bool)
    requires !HasSuffix(g, "/**")
    ensures Fences(g, p, glob) <==> g != "" && if '/' in g then glob(g, p) else glob(g, Base(p))
    ensures Admits(g, p, glob) <==> g != "" && glob(g, p) && ('/' in g || '/' !in p)
  {
    hide Contains;
  }

  /** Read as a scope, a pattern admits exactly the paths that it fences and that start at the root. */
  lemma ScopeIsAnchoredFence(g: string, p: string, glob: (string, string) -> bool)
    ensures Admits(g, p, glob) <==>
            Fences(g, p, glob) && (Shape(g).Tree? ==> HasPrefix(p, Shape(g).dir + "/"))
              && (Shape(g).Bare? ==> '/' !in p)
  {
    hide Contains;
    if '/' !in p {
      assert Base(p) == p;
    }
  }

  /** The difference is real: a directory of that name further down is fenced, but not in scope. */
  lemma FenceReachesDeeper(glob: (string, string) -> bool)
    ensures Fences("a/**", "b/a/x", glob) && !Admits("a/**", "b/a/x", glob)
  {
    var g, p := "a/**", "b/a/x";
    assert HasSuffix(g, "/**") && g[..1] == "a";
    assert "/" + "a" + "/" == "/a/" && "a" + "/" == "a/";
    assert p[1..] == "/a/x" && p[1..][..3] == "/a/" && Contains(p[1..], "/a/");
    assert p[..2] == "b/" && "b/"[0] == 'b' && "a/"[0] == 'a';
    assert !HasPrefix(p, "a/");
  }

  // ---- paths --------------------------------------------------------------------------------------------

  /** Components are neither empty nor ".". */
  predicate Proper(rest: string)
    decreases |rest|
  {
    var name := Before(rest, '/');
    name != "" && name != "." &&
    (|name| < |rest| ==> Proper(rest[|name| + 1..]))
  }

  /** No file stands where another path has a directory. */
  predicate Placed(t: Workspace) {
    && (forall p :: p in t ==> Proper(p))
    && (forall p, q :: p in t && q in t ==> !HasPrefix(q, p + "/"))
  }

  /** Some directory on the way is called ".git". */
  predicate Hidden(rest: string)
    decreases |rest|
  {
    var name := Before(rest, '/');
    |name| < |rest| && (name == ".git" || Hidden(rest[|name| + 1..]))
  }

  predicate Under(dir: string, p: string) {
    dir == "." || HasPrefix(p, dir + "/")
  }

  /** The part of p below dir. */
  function Rest(dir: string, p: string): string
    requires Under(dir, p)
  {
    if dir == "." then p else p[|dir| + 1..]
  }

  function Child(dir: string, name: string): string {
    if dir == "." then name else dir + "/" + name
  }

  /** The entry of dir that p is, or lies below. */
  function EntryOf(dir: string, p: string): string
    requires Under(dir, p)
  {
    Before(Rest(dir, p), '/')
  }

  /** A path below dir is an entry of dir, or lies below one that is a directory. */
  lemma EntryCases(dir: string, p: string)
    requires Under(dir, p) && Proper(Rest(dir, p))
    ensures var name, rest := EntryOf(dir, p), Rest(dir, p);
            && name != "" && Child(dir, name) != "." && '/' !in name
            && if |name| < |rest|
               then Under(Child(dir, name), p) && Rest(Child(dir, name), p) == rest[|name| + 1..]
                 && Proper(rest[|name| + 1..])
               else p == Child(dir, name)
  {
    hide *;
    var name, rest := EntryOf(dir, p), Rest(dir, p);
    EntryIs(dir, p);
    ProperSplits(rest);
    RestJoins(dir, p);
    ChildIsNotRoot(dir, name);
    if |name| < |rest| {
      BelowChild(dir, name, rest[|name| + 1..]);
    } else {
      ChildIs(dir, name);
    }
  }

  lemma EntryIs(dir: string, p: string)
    requires Under(dir, p)
    ensures EntryOf(dir, p) == Before(Rest(dir, p), '/')
  {
  }

  lemma ChildIs(dir: string, name: string)
    ensures Child(dir, name) == if dir == "." then name else dir + "/" + name
  {
  }

  lemma BelowChild(dir: string, name: string, more: string)
    requires Child(dir, name) != "."
    ensures var c, p := Child(dir, name), if dir == "." then name + "/" + more else dir + "/" + (name + "/" + more);
            Under(c, p) && Rest(c, p) == more
  {
    var c, p := Child(dir, name), if dir == "." then name + "/" + more else dir + "/" + (name + "/" + more);
    assert p == (c + "/") + more;
  }

  lemma {:induction false} ProperSplits(rest: string)
    requires Proper(rest)
    ensures var name := Before(rest, '/');
            && name != "" && name != "." && '/' !in name
            && if |name| < |rest| then rest == name + "/" + rest[|name| + 1..] && Proper(rest[|name| + 1..])
               else rest == name
  {
    BeforeStops(rest, '/');
  }

  lemma RestJoins(dir: string, p: string)
    requires Under(dir, p)
    ensures p == if dir == "." then Rest(dir, p) else dir + "/" + Rest(dir, p)
  {
  }

  lemma ChildIsNotRoot(dir: string, name: string)
    requires name != "" && name != "."
    ensures Child(dir, name) != "."
  {
    if dir != "." {
      assert |dir + "/" + name| >= 2;
    }
  }

  /** What lies below an entry has that entry. */
  lemma EntryBelow(dir: string, name: string, p: string)
    requires '/' !in name && Child(dir, name) != "." && Under(Child(dir, name), p)
    ensures Under(dir, p) && EntryOf(dir, p) == name && Rest(dir, p) == name + "/" + Rest(Child(dir, name), p)
  {
    var c := Child(dir, name);
    var rest := Rest(c, p);
    assert p == c + "/" + rest;
    if dir != "." {
      assert p == dir + "/" + (name + "/" + rest);
    }
    assert Rest(dir, p) == name + ['/'] + rest;
    BeforeConcat(name, '/', rest);
  }

  /** Hidden paths are those with a ".git/" at the start or after a slash. */
  lemma {:induction false} HiddenMeans(p: string)
    ensures Hidden(p) <==> HasPrefix(p, ".git/") || Contains(p, "/.git/")
    decreases |p|
  {
    var name := Before(p, '/');
    BeforeStops(p, '/');
    if |name| < |p| {
      var rest := p[|name| + 1..];
      HiddenMeans(rest);
      assert p == name + "/" + rest;
      GitFirst(name, rest);
      SlashFirst(name, rest);
    } else {
      NoSlash(p);
    }
  }

  lemma GitFirst(name: string, rest: string)
    requires '/' !in name
    ensures HasPrefix(name + "/" + rest, ".git/") <==> name == ".git"
  {
    var p, g := name + "/" + rest, ".git/";
    assert p[|name|] == '/' && g[4] == '/' && forall k :: 0 <= k < 4 ==> g[k] != '/';
    if |name| < 4 {
      DiffersAt(p, g, |name|);
    } else if |name| > 4 {
      assert p[4] == name[4] && name[4] in name;
      DiffersAt(p, g, 4);
    } else {
      assert p[..5] == name + "/";
      assert g == ".git" + "/";
      assert (name + "/")[..4] == name && (".git" + "/")[..4] == ".git";
    }
  }

  /** The first slash is where "/.git/" can first occur. */
  lemma {:induction false} SlashFirst(name: string, rest: string)
    requires '/' !in name
    ensures Contains(name + "/" + rest, "/.git/") <==> HasPrefix(rest, ".git/") || Contains(rest, "/.git/")
    decreases |name|
  {
    var p, g := name + "/" + rest, "/.git/";
    if name == "" {
      assert p[1..] == rest;
      assert g[1..] == ".git/";
      if HasPrefix(rest, ".git/") {
        assert p[..6] == "/" + rest[..5] == g;
      }
      if HasPrefix(p, g) {
        assert rest[..5] == p[..6][1..] == g[1..];
      }
    } else {
      assert p[1..] == name[1..] + "/" + rest;
      SlashFirst(name[1..], rest);
      assert p[0] == name[0] && name[0] in name && g[0] == '/';
      DiffersAt(p, g, 0);
    }
  }

  lemma {:induction false} NoSlash(p: string)
    requires '/' !in p
    ensures !HasPrefix(p, ".git/") && !Contains(p, "/.git/")
  {
    if |p| > 4 {
      assert p[4] in p && ".git/"[4] == '/';
      DiffersAt(p, ".git/", 4);
    }
    if p != "" {
      assert p[0] in p && "/.git/"[0] == '/';
      DiffersAt(p, "/.git/", 0);
      NoSlash(p[1..]);
    }
  }

  // ---- the snapshot -------------------------------------------------------------------------------------

  /** What is kept of a fenced file: digests that tell whether it changed, and the bytes to undo that, up to the cap. */
  datatype Fenced = Fenced(hash: string, content: Option<string>, fullHash: string, size: nat)

  function Snap(data: string, limit: nat): Fenced {
    if |data| <= limit then Fenced(data, Some(data), "", 0) else Fenced(data[..limit], None, data, |data|)
  }

  predicate SameFile(a: Fenced, b: Fenced) {
    a.hash == b.hash && a.fullHash == b.fullHash && a.size == b.size
  }

  /** The digests tell any two files apart, on either side of the cap. */
  lemma SnapTellsApart(a: string, b: string, limit: nat)
    ensures SameFile(Snap(a, limit), Snap(b, limit)) <==> a == b
  {
  }

  /** The fenced files below dir, outside .git. */
  function Below(t: Workspace, dir: string, fenced: string -> bool, limit: nat): map<string, Fenced> {
    map p | p in t && Under(dir, p) && fenced(p) && !Hidden(Rest(dir, p)) :: Snap(t[p], limit)
  }

  function Snapshot(t: Workspace, fenced: string -> bool, limit: nat): (m: map<string, Fenced>)
    ensures forall p :: p in m <==> p in t && fenced(p) && !Hidden(p)
    ensures forall p :: p in m ==> m[p] == Snap(t[p], limit)
  {
    Below(t, ".", fenced, limit)
  }

  /** The same, for the entries in done only. */
  function Covered(t: Workspace, dir: string, done: set<string>, fenced: string -> bool,
          limit: nat): map<string, Fenced> {
    map p | p in t && Under(dir, p) && EntryOf(dir, p) in done && fenced(p)
      && !Hidden(Rest(dir, p)) :: Snap(t[p], limit)
  }

  function Entries(t: Workspace, dir: string): set<string> {
    set p | p in t && Under(dir, p) :: EntryOf(dir, p)
  }

  /** The walk is in dir: what lies below it has proper paths from there on. */
  predicate Walkable(t: Workspace, dir: string) {
    forall p :: p in t && Under(dir, p) ==> Proper(Rest(dir, p))
  }

  predicate IsDir(t: Workspace, c: string) {
    exists p :: p in t && HasPrefix(p, c + "/")
  }

  lemma HiddenStep(dir: string, p: string)
    requires Under(dir, p)
    ensures var name, rest := EntryOf(dir, p), Rest(dir, p);
            Hidden(rest) <==> |name| < |rest| && (name == ".git" || Hidden(rest[|name| + 1..]))
  {
  }

  lemma CoverDir(t: Workspace, dir: string, done: set<string>, n: string, fenced: string -> bool, limit: nat)
    requires Placed(t) && Walkable(t, dir) && n in Entries(t, dir) && n !in done && IsDir(t, Child(dir, n))
    ensures n == ".git" ==> Covered(t, dir, done + {n}, fenced, limit) == Covered(t, dir, done, fenced, limit)
    ensures n != ".git" ==>
              Covered(t, dir, done + {n}, fenced, limit) ==
                Covered(t, dir, done, fenced, limit) + Below(t, Child(dir, n), fenced, limit)
    ensures Walkable(t, Child(dir, n)) && Child(dir, n) != "."
  {
    hide Proper, HasPrefix, Before, Hidden;
    var c := Child(dir, n);
    var p0 :| p0 in t && Under(dir, p0) && EntryOf(dir, p0) == n;
    EntryCases(dir, p0);
    forall p | p in t && Under(dir, p) && EntryOf(dir, p) == n
      ensures Under(c, p) && Hidden(Rest(dir, p)) == (n == ".git" || Hidden(Rest(c, p)))
    {
      EntryCases(dir, p);
      HiddenStep(dir, p);
    }
    forall p | p in t && Under(c, p)
      ensures Under(dir, p) && EntryOf(dir, p) == n && Proper(Rest(c, p))
    {
      EntryBelow(dir, n, p);
      EntryCases(dir, p);
    }
    hide Hidden, Under, Rest, EntryOf;
  }

  lemma CoverFile(t: Workspace, dir: string, done: set<string>, n: string, fenced: string -> bool, limit: nat)
    requires Walkable(t, dir) && n in Entries(t, dir) && n !in done && !IsDir(t, Child(dir, n))
    ensures Child(dir, n) in t
    ensures Covered(t, dir, done + {n}, fenced, limit) ==
            if fenced(Child(dir, n)) then
              Covered(t, dir, done, fenced, limit)[Child(dir, n) := Snap(t[Child(dir, n)], limit)]
            else Covered(t, dir, done, fenced, limit)
  {
    hide Proper, HasPrefix;
    var c := Child(dir, n);
    forall p | p in t && Under(dir, p) && EntryOf(dir, p) == n
      ensures p == c && !Hidden(Rest(dir, p))
    {
      EntryCases(dir, p);
      HiddenStep(dir, p);
    }
    var p0 :| p0 in t && Under(dir, p0) && EntryOf(dir, p0) == n;
    hide Hidden, Under, Rest, EntryOf;
  }

  lemma CoverAll(t: Workspace, dir: string, fenced: string -> bool, limit: nat)
    ensures Covered(t, dir, Entries(t, dir), fenced, limit) == Below(t, dir, fenced, limit)
    ensures Covered(t, dir, {}, fenced, limit) == map[]
  {
    hide Under, Rest, EntryOf, Hidden;
  }

  /** A step down makes the path of the directory longer, and no path is longer than depth. */
  function Left(dir: string, depth: nat): int {
    if dir == "." then depth + 1 else depth - |dir|
  }

  predicate Within(t: Workspace, depth: nat) {
    forall p :: p in t ==> |p| <= depth
  }

  lemma StepsDown(t: Workspace, dir: string, n: string, depth: nat)
    requires Within(t, depth) && IsDir(t, Child(dir, n))
    ensures 0 <= Left(Child(dir, n), depth) < Left(dir, depth) || Child(dir, n) == "."
  {
  }

  /** What may fail: listing a directory, reading a file. */
  datatype Access = Access(lists: string -> bool, opens: string -> bool)

  ghost predicate CanFail(t: Workspace, fenced: string -> bool, a: Access) {
    (exists d :: !a.lists(d)) || (exists p :: p in t && fenced(p) && !a.opens(p))
  }

  lemma ListFails(t: Workspace, fenced: string -> bool, a: Access, dir: string)
    requires !a.lists(dir)
    ensures CanFail(t, fenced, a)
  {
  }

  lemma OpenFails(t: Workspace, fenced: string -> bool, a: Access, p: string)
    requires p in t && fenced(p) && !a.opens(p)
    ensures CanFail(t, fenced, a)
  {
  }

  /** Walks a directory through the listings of the workspace, in whatever order they come. */
  method Walk(t: Workspace, dir: string, fenced: string -> bool, limit: nat, a: Access, ghost depth: nat)
    returns (out: map<string, Fenced>, ok: bool)
    requires Placed(t) && Walkable(t, dir) && Within(t, depth)
    ensures ok ==> out == Below(t, dir, fenced, limit)
    ensures !ok ==> CanFail(t, fenced, a)
    ensures ok ==> a.lists(dir)
    decreases Left(dir, depth)
  {
    hide *;
    out, ok := map[], true;
    if !a.lists(dir) {
      ListFails(t, fenced, a, dir);
      return out, false;
    }
    var todo := Entries(t, dir);
    ghost var done: set<string> := {};
    CoverAll(t, dir, fenced, limit);
    while todo != {}
      invariant ok && done <= Entries(t, dir) && todo == Entries(t, dir) - done
      invariant out == Covered(t, dir, done, fenced, limit)
      decreases |todo|
    {
      var n :| n in todo;
      todo := todo - {n};
      var c := Child(dir, n);
      if IsDir(t, c) {
        CoverDir(t, dir, done, n, fenced, limit);
        if n != ".git" {
          StepsDown(t, dir, n, depth);
          var sub, fine := Walk(t, c, fenced, limit, a, depth);
          if !fine {
            return out, false;
          }
          out := out + sub;
        }
      } else {
        CoverFile(t, dir, done, n, fenced, limit);
        if fenced(c) {
          if !a.opens(c) {
            OpenFails(t, fenced, a, c);
            return out, false;
          }
          out := out[c := Snap(t[c], limit)];
        }
      }
      done := done + {n};
    }
    assert done == Entries(t, dir);
  }

  /** A bound on the length of all paths. */
  lemma Depth(t: Workspace) returns (d: nat)
    ensures Within(t, d)
  {
    d := 0;
    var todo := t.Keys;
    while todo != {}
      invariant todo <= t.Keys
      invariant forall p :: p in t && p !in todo ==> |p| <= d
      decreases |todo|
    {
      var p :| p in todo;
      todo := todo - {p};
      d := if |p| > d then |p| else d;
    }
  }

  /** Snapshots exactly the fenced files outside .git. */
  method WalkFenced(t: Workspace, fenced: string -> bool, limit: nat, a: Access)
    returns (out: map<string, Fenced>, ok: bool)
    requires Placed(t)
    ensures ok ==> out == Snapshot(t, fenced, limit)
    ensures !ok ==> CanFail(t, fenced, a)
  {
    hide *;
    ghost var depth := Depth(t);
    WholeTree(t, fenced, limit);
    out, ok := Walk(t, ".", fenced, limit, a, depth);
  }

  lemma WholeTree(t: Workspace, fenced: string -> bool, limit: nat)
    requires Placed(t)
    ensures Walkable(t, ".") && Snapshot(t, fenced, limit) == Below(t, ".", fenced, limit)
  {
    hide Proper, HasPrefix;
  }

  // ---- drift ------------------------------------------------------------------------------------------------

  /** The paths at which two snapshots are not the same. */
  function Drifted(base: map<string, Fenced>, cur: map<string, Fenced>): set<string> {
    set p | p in base.Keys + cur.Keys && (p !in base || p !in cur || !SameFile(base[p], cur[p]))
  }

  function Self(s: string): string { s }

  predicate Sorted(s: seq<string>) {
    forall i, j :: 0 <= i < j < |s| ==> Less(s[i], s[j])
  }

  lemma SelfIs(s: seq<string>)
    ensures (forall i, j :: 0 <= i < j < |s| ==> s[i] != s[j]) ==> DistinctBy(s, Self)
    ensures Increasing(s, Self) ==> Sorted(s)
  {
  }

  predicate Agree(t: Workspace, u: Workspace, p: string) {
    if p in t then p in u && t[p] == u[p] else p !in u
  }

  /** The drift is exactly the fenced paths outside .git that were changed, deleted, or created. */
  lemma DriftIsExact(t0: Workspace, t1: Workspace, fenced: string -> bool, limit: nat)
    ensures forall p :: p in Drifted(Snapshot(t0, fenced, limit), Snapshot(t1, fenced, limit)) <==>
                        fenced(p) && !Hidden(p) && !Agree(t0, t1, p)
  {
    var base, cur := Snapshot(t0, fenced, limit), Snapshot(t1, fenced, limit);
    hide Below, Hidden, SameFile, Snap;
    forall p | p in base && p in cur ensures SameFile(base[p], cur[p]) <==> t0[p] == t1[p] {
      SnapTellsApart(t0[p], t1[p], limit);
    }
  }

  /** Walks the workspace again and lists what drifted, sorted. */
  method DriftCheck(base: map<string, Fenced>, t: Workspace, fenced: string -> bool, limit: nat, a: Access)
    returns (out: seq<string>, ok: bool)
    requires Placed(t)
    ensures ok ==> Sorted(out) && forall p :: p in out <==> p in Drifted(base, Snapshot(t, fenced, limit))
    ensures !ok ==> out == [] && CanFail(t, fenced, a)
  {
    hide *;
    var cur;
    cur, ok := WalkFenced(t, fenced, limit, a);
    if !ok {
      return [], false;
    }
    var found := Collect(base, cur);
    SelfIs(found);
    out := SortBy(found, Self);
    SelfIs(out);
  }

  /** The two passes over the maps. */
  method Collect(base: map<string, Fenced>, cur: map<string, Fenced>) returns (out: seq<string>)
    ensures forall i, j :: 0 <= i < j < |out| ==> out[i] != out[j]
    ensures forall p :: p in out <==> p in Drifted(base, cur)
  {
    hide SameFile;
    out := [];
    var todo := cur.Keys;
    while todo != {}
      invariant todo <= cur.Keys
      invariant forall i, j :: 0 <= i < j < |out| ==> out[i] != out[j]
      invariant forall p :: p in out <==> p in cur && p !in todo && (p !in base || !SameFile(base[p], cur[p]))
      decreases |todo|
    {
      var p :| p in todo;
      todo := todo - {p};
      if p !in base || !SameFile(base[p], cur[p]) {
        out := out + [p];
      }
    }
    todo := base.Keys;
    while todo != {}
      invariant todo <= base.Keys
      invariant forall i, j :: 0 <= i < j < |out| ==> out[i] != out[j]
      invariant forall p :: p in out <==>
                            || (p in cur && (p !in base || !SameFile(base[p], cur[p])))
                            || (p in base && p !in todo && p !in cur)
      decreases |todo|
    {
      var p :| p in todo;
      todo := todo - {p};
      if p !in cur {
        out := out + [p];
      }
    }
  }

  // ---- a locked test --------------------------------------------------------------------------------------------

  /** The snapshot after a repro test has been locked: a fenced one is recorded with its whole content. */
  function AdmitLocked(base: map<string, Fenced>, p: string, data: string,
          fenced: string -> bool): map<string, Fenced> {
    if fenced(p) then base[p := Fenced(data, Some(data), "", 0)] else base
  }

  /**
   What locking a test does to the next drift check: the test itself counts as drifted exactly unless it
   still has the locked content and that fits under the size cap (beyond the cap the whole-file digest
   that the walk records was never taken); every other path is judged as before.
  */
  lemma {:induction false} DriftAfterLock(base: map<string, Fenced>, t: Workspace, p: string, data: string,
          fenced: string -> bool, limit: nat)
    requires fenced(p)
    ensures var now := Snapshot(t, fenced, limit);
            var before, after := Drifted(base, now), Drifted(AdmitLocked(base, p, data, fenced), now);
            && (p !in after <==> p in t && t[p] == data && !Hidden(p) && |data| <= limit)
            && forall q :: q != p ==> (q in after <==> q in before)
  {
    hide Hidden, Below;
    if p in t && !Hidden(p) {
      LockedIsSame(t[p], data, limit);
    }
  }

  lemma LockedIsSame(now: string, data: string, limit: nat)
    ensures SameFile(Fenced(data, Some(data), "", 0), Snap(now, limit)) <==> now == data && |data| <= limit
  {
  }

  // ---- restore ----------------------------------------------------------------------------------------------

  /** No file is in the way of p, and p is in the way of none. */
  predicate Fits(p: string, q: string) {
    !HasPrefix(q, p + "/") && !HasPrefix(p, q + "/")
  }

  /** u is t with every listed path put back to what base kept of it, or removed when base has none. */
  ghost predicate PutBack(t: Workspace, u: Workspace, base: map<string, Fenced>, paths: seq<string>) {
    && (forall p :: p in paths && p in base ==> p in u && base[p].content == Some(u[p]))
    && (forall p :: p in paths && p !in base ==> p !in u)
    && (forall p :: p !in paths ==> Agree(t, u, p))
  }

  /** Nothing stands in the way of the restore. */
  ghost predicate Restorable(t: Workspace, base: map<string, Fenced>, paths: seq<string>, works: nat -> bool) {
    forall k :: 0 <= k < |paths| ==>
      && works(k)
      && (paths[k] in base ==>
          base[paths[k]].content.Some? && forall q :: q in t || q in base ==> Fits(paths[k], q))
  }

  /** Rewrites the listed paths; works says which operations of the workspace succeed. */
  method Restore(t: Workspace, base: map<string, Fenced>, paths: seq<string>, works: nat -> bool)
    returns (u: Workspace, ok: bool)
    requires Placed(t) && (forall p :: p in base ==> Proper(p))
    ensures Placed(u)
    ensures ok ==> PutBack(t, u, base, paths)
    ensures Restorable(t, base, paths, works) ==> ok
  {
    hide *;
    u := t;
    PutBackNone(t, base);
    KeysFit(t, base);
    var k := 0;
    while k < |paths|
      invariant k <= |paths| && Placed(u)
      invariant PutBack(t, u, base, paths[..k])
      invariant u.Keys <= t.Keys + base.Keys
    {
      var p := paths[k];
      if p !in base {
        if !works(k) {
          RestoreFails(t, base, paths, works, k);
          return u, false;
        }
        PutBackOne(t, u, base, paths, k, u - {p});
        StillPlaced(u, u - {p});
        u := u - {p};
      } else if base[p].content.None? {
        RestoreFails(t, base, paths, works, k);
        return u, false;
      } else {
        if !works(k) || exists q :: q in u && !Fits(p, q) {
          RestoreFails(t, base, paths, works, k);
          return u, false;
        }
        var v := u[p := base[p].content.value];
        PutBackOne(t, u, base, paths, k, v);
        OneMorePlaced(u, p, base[p].content.value);
        u := v;
      }
      k := k + 1;
    }
    assert paths[..k] == paths;
    return u, true;
  }

  lemma PutBackNone(t: Workspace, base: map<string, Fenced>)
    ensures PutBack(t, t, base, [])
  {
  }

  lemma KeysFit(t: Workspace, base: map<string, Fenced>)
    ensures t.Keys <= t.Keys + base.Keys
  {
  }

  lemma RestoreFails(t: Workspace, base: map<string, Fenced>, paths: seq<string>, works: nat -> bool, k: nat)
    requires k < |paths|
    requires !works(k) || (paths[k] in base
               && (base[paths[k]].content.None? || exists q :: q in t.Keys + base.Keys && !Fits(paths[k], q)))
    ensures !Restorable(t, base, paths, works)
  {
    hide Fits;
  }

  lemma PutBackOne(t: Workspace, u: Workspace, base: map<string, Fenced>, paths: seq<string>, k: nat, v: Workspace)
    requires k < |paths| && PutBack(t, u, base, paths[..k])
    requires if paths[k] in base then base[paths[k]].content.Some? && v == u[paths[k] := base[paths[k]].content.value]
             else v == u - {paths[k]}
    ensures PutBack(t, v, base, paths[..k + 1])
  {
    assert paths[..k + 1] == paths[..k] + [paths[k]];
  }

  lemma StillPlaced(u: Workspace, v: Workspace)
    requires Placed(u) && v.Keys <= u.Keys
    ensures Placed(v)
  {
    hide Proper, HasPrefix;
  }

  lemma {:induction false} OneMorePlaced(u: Workspace, p: string, data: string)
    requires Placed(u) && Proper(p) && forall q :: q in u ==> Fits(p, q)
    ensures Placed(u[p := data])
  {
    hide Proper;
    assert !HasPrefix(p, p + "/");
  }

  /** Restoring exactly what drifted undoes the drift, and touches nothing else. */
  lemma RestoreUndoesDrift(t0: Workspace, t1: Workspace, t2: Workspace, paths: seq<string>, fenced: string -> bool,
          limit: nat)
    requires forall p :: p in paths <==> p in Drifted(Snapshot(t0, fenced, limit), Snapshot(t1, fenced, limit))
    requires PutBack(t1, t2, Snapshot(t0, fenced, limit), paths)
    ensures Drifted(Snapshot(t0, fenced, limit), Snapshot(t2, fenced, limit)) == {}
    ensures forall p :: if fenced(p) && !Hidden(p) then Agree(t0, t2, p) else Agree(t1, t2, p)
  {
    DriftIsExact(t0, t1, fenced, limit);
    DriftIsExact(t0, t2, fenced, limit);
    hide Hidden, Drifted;
    ghost var base := Snapshot(t0, fenced, limit);
    forall p | fenced(p) && !Hidden(p) ensures Agree(t0, t2, p) {
      if p in paths && p in base {
        assert base[p] == Snap(t0[p], limit);
      }
    }
  }
}
