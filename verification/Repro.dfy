/**
 The repro-first gate: before it may answer, a run declares a new test that fails on the untouched
 tree, or records why there is none.  A tree is a map from path to content; a content hash is
 taken to be injective, so the locked hash is kept as the content itself.
*/
module Repro {
  import opened Texts
  import opened Runs
  import opened Generate
  import Fence

  type Tree = map<string, string>

  datatype State =
    | Undeclared
    | Skipped(reason: string)
    | Locked(path: string, cmd: string, content: string, green: Option<bool>, timedOut: bool)

  /**
   What running a command in a tree gives: the tree it leaves, what its output shows unless it could not
   start, and the text of that output.
  */
  datatype CommandRun = CommandRun(after: Tree, out: Option<RunOutput>, text: string)

  /** What the workspace answers during a declaration; restores are numbered in the order they are tried. */
  datatype DeclareWorld = DeclareWorld(
    safePath: Option<string>,
    base: Option<Tree>,
    snapshotOk: bool,
    restoreOk: nat -> bool,
    wreck: nat -> Tree,       // what a restore that failed leaves behind
    mkdirOk: bool,
    writeOk: bool,
    run: Tree -> CommandRun)

  /** The declaration gets as far as touching the workspace. */
  predicate Admissible(s: State, cmd: string, tree: Tree, w: DeclareWorld) {
    !AllSpaces(cmd) && !s.Locked? && w.safePath.Some? && w.safePath.value in tree && w.base.Some? && w.snapshotOk
  }

  /** The tree the command is tried in: the untouched tree with the new file in it. */
  function Injected(tree: Tree, w: DeclareWorld): Tree
    requires w.safePath.Some? && w.safePath.value in tree && w.base.Some?
  {
    w.base.value[w.safePath.value := tree[w.safePath.value]]
  }

  /** The command demonstrates the bug: it ran, and failed as a test rather than as a build. */
  predicate Demonstrates(r: CommandRun) {
    r.out.Some? && r.out.value.exit.Failed? && !r.out.value.timedOut && !GradeRed(r.text).BuildFailure?
  }

  /** Exactly the declarations that lock. */
  predicate Locks(s: State, cmd: string, tree: Tree, w: DeclareWorld) {
    && Admissible(s, cmd, tree, w) && w.restoreOk(0) && w.safePath.value !in w.base.value
    && w.mkdirOk && w.writeOk && w.restoreOk(1) && Demonstrates(w.run(Injected(tree, w)))
  }

  datatype Objection = ReproMissing | ReproRed

  /** What the workspace answers when a finish checks the repro again. */
  datatype RerunWorld = RerunWorld(file: Option<string>, snapshotOk: bool, run: Option<RunOutput>)

  /** The gate has nothing to say: switched off, skipped on record, or unchanged and no longer failing. */
  predicate Satisfied(reproFirst: bool, s: State, w: RerunWorld) {
    || !reproFirst || s.Skipped?
    || (s.Locked? && w.file == Some(s.content) && w.snapshotOk && w.run.Some?
         && (w.run.value.timedOut || !w.run.value.exit.Failed?))
  }

  /** What is locked stays locked: path, command and content never change. */
  predicate StaysLocked(s: State, s': State) {
    s.Locked? ==> s'.Locked? && s'.path == s.path && s'.cmd == s.cmd && s'.content == s.content
  }

  /** What a finish may do to the state: record how the locked test did, and nothing else. */
  predicate Advances(s: State, s': State) {
    StaysLocked(s, s') && (!s.Locked? ==> s' == s)
  }

  /** The state without the record of how the locked test did. */
  function Core(s: State): State {
    if s.Locked? then s.(green := None, timedOut := false) else s
  }

  lemma AdvancesNowhere(s: State)
    ensures Advances(s, s)
  {
  }

  lemma CoreMeans(s: State, s': State, reproFirst: bool, w: RerunWorld)
    ensures Advances(s, s') ==> Core(s') == Core(s)
    ensures Satisfied(reproFirst, Core(s), w) <==> Satisfied(reproFirst, s, w)
  {
  }

  class ReproGate {
    const fenced: string -> bool

    var state: State
    var fenceBase: map<string, Fence.Fenced>   // the fence snapshot that drift is measured against

    constructor (fenced: string -> bool, fenceBase: map<string, Fence.Fenced>)
      ensures state == Undeclared && this.fenced == fenced && this.fenceBase == fenceBase
    {
      this.fenced, this.fenceBase, state := fenced, fenceBase, Undeclared;
    }

    /**
     Tries the declared test on the untouched tree.  Whatever path it takes, the workspace ends as it
     was, unless every attempt to restore it failed.
    */
    method DeclareRepro(cmd: string, tree0: Tree, w: DeclareWorld) returns (accepted: bool, tree: Tree, attempts: nat)
      modifies this
      ensures accepted <==> Locks(old(state), cmd, tree0, w)
      ensures state == if accepted then Locked(w.safePath.value, cmd, tree0[w.safePath.value], None, false)
              else old(state)
      ensures fenceBase == if accepted then
              Fence.AdmitLocked(old(fenceBase), w.safePath.value, tree0[w.safePath.value], fenced)
                           else old(fenceBase)
      ensures !Admissible(old(state), cmd, tree0, w) ==> tree == tree0 && attempts == 0
      ensures Admissible(old(state), cmd, tree0, w) ==>
                attempts >= 1 && (tree == tree0 || forall k :: 1 <= k <= attempts ==> !w.restoreOk(k))
      ensures accepted ==> tree == tree0
      ensures StaysLocked(old(state), state)
    {
      BlankIff(cmd);
      if TrimSpace(cmd) == "" || state.Locked? || w.safePath.None? {
        return false, tree0, 0;
      }
      var rel := w.safePath.value;
      if rel !in tree0 || w.base.None? || !w.snapshotOk {
        return false, tree0, 0;
      }
      var restored;
      accepted, tree, attempts, restored := TryOnBase(cmd, tree0, w);
      if !restored {
        // the deferred restore
        attempts := attempts + 1;
        tree := if w.restoreOk(attempts) then tree0 else w.wreck(attempts);
      }
    }

    /** The part of a declaration that works on the base tree; attempts counts the restores of the entry tree. */
    method TryOnBase(cmd: string, tree0: Tree, w: DeclareWorld)
      returns (accepted: bool, tree: Tree, attempts: nat, restored: bool)
      requires Admissible(state, cmd, tree0, w)
      modifies this
      ensures accepted <==> Locks(old(state), cmd, tree0, w)
      ensures state == if accepted then Locked(w.safePath.value, cmd, tree0[w.safePath.value], None, false)
              else old(state)
      ensures fenceBase == if accepted then
              Fence.AdmitLocked(old(fenceBase), w.safePath.value, tree0[w.safePath.value], fenced)
                           else old(fenceBase)
      ensures attempts <= 1 && (attempts == 1 && w.restoreOk(1) ==> restored && tree == tree0)
      ensures restored ==> attempts == 1
      ensures accepted ==> restored && w.restoreOk(1)
    {
      var rel, base := w.safePath.value, w.base.value;
      var data := tree0[rel];
      if !w.restoreOk(0) {
        return false, w.wreck(0), 0, false;
      }
      tree := base;
      restored := base == tree0; // restoring the base restores the entry tree when they are the same
      if rel in tree {
        if w.restoreOk(1) {
          return false, tree0, 1, true;
        }
        return false, w.wreck(1), 1, restored;
      }
      if !w.mkdirOk || !w.writeOk {
        return false, tree, 0, restored;
      }
      tree := tree[rel := data];
      var r := w.run(tree);
      if !w.restoreOk(1) {
        return false, w.wreck(1), 1, restored;
      }
      tree := tree0;
      if r.out.None? {
        return false, tree, 1, true;
      }
      var grade := GradeRed(r.text);
      if r.out.value.timedOut || !r.out.value.exit.Failed? || grade.BuildFailure? {
        return false, tree, 1, true;
      }
      state := Locked(rel, cmd, data, None, false);
      if fenced(rel) {
        fenceBase := fenceBase[rel := Fence.Fenced(data, Some(data), "", 0)];
      }
      return true, tree, 1, true;
    }

    /** Puts on record that there is no executable reproduction. */
    method SkipRepro(reason: string) returns (accepted: bool)
      modifies this`state
      ensures accepted <==> !AllSpaces(reason) && !old(state).Locked?
      ensures state == if accepted then Skipped(TrimSpace(reason)) else old(state)
      ensures StaysLocked(old(state), state)
    {
      BlankIff(reason);
      var text := TrimSpace(reason);
      if text == "" || state.Locked? {
        return false;
      }
      state := Skipped(text);
      return true;
    }

    /** The gate at a finish: objects unless it is satisfied. */
    method ReproFinish(reproFirst: bool, w: RerunWorld) returns (objection: Option<Objection>)
      modifies this`state
      ensures objection.None? <==> Satisfied(reproFirst, old(state), w)
      ensures objection == Some(ReproMissing) <==> reproFirst && old(state).Undeclared?
      ensures objection.Some? ==> objection.value == if old(state).Undeclared? then ReproMissing else ReproRed
      ensures Advances(old(state), state)
      ensures reproFirst && state.Locked? && objection.None? ==> state.timedOut || state.green == Some(true)
      ensures state ==
              if !reproFirst || !old(state).Locked? || w.file != Some(old(state).content) || !w.snapshotOk
                || w.run.None? then
                old(state)
              else if w.run.value.timedOut then old(state).(timedOut := true)
              else old(state).(green := Some(!w.run.value.exit.Failed?))
    {
      if !reproFirst {
        return None;
      }
      match state {
        case Undeclared => return Some(ReproMissing);
        case Skipped(_) => return None;
        case Locked(path, cmd, content, green, timedOut) =>
          if w.file.None? || w.file.value != content || !w.snapshotOk || w.run.None? {
            return Some(ReproRed);
          }
          var out := w.run.value;
          if out.timedOut {
            state := Locked(path, cmd, content, green, true);
            return None;
          }
          state := Locked(path, cmd, content, Some(!out.exit.Failed?), timedOut);
          return if out.exit.Failed? then Some(ReproRed) else None;
      }
    }
  }
}
