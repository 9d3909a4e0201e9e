/**
 The evaluation sweep: every case with every model, n trials each, up to `workers` of them at once.
 The goroutines are modelled by the steps they take; a run is any interleaving of those steps.
*/
module Sweep {
  import opened Generate
  import opened Gates

  datatype Trial = Trial(index: nat, pass: bool, err: bool, noAttempt: bool, outcome: RunOutcome)

  /** The trials of one case with one model; a slot that has not been written is None. */
  datatype Cell = Cell(ci: nat, mi: nat, trials: seq<Option<Trial>>)

  /** One iteration of the nested loops. */
  datatype Job = Job(ci: nat, mi: nat, idx: nat)

  datatype Plan = Plan(cases: nat, models: nat, n: nat, workers: nat) {
    predicate Has(j: Job) { j.ci < cases && j.mi < models && j.idx < n }
  }

  /** RunTrial, by case, model, and number from 1. */
  type Runner = (nat, nat, nat) -> Trial

  function AtLeastOne(x: int): nat {
    if x < 1 then 1 else x
  }

  function MakePlan(cases: nat, models: nat, n: int, workers: int): (p: Plan)
    ensures p.cases == cases && p.models == models
    ensures (n >= 1 ==> p.n == n) && (n < 1 ==> p.n == 1)
    ensures (workers >= 1 ==> p.workers == workers) && (workers < 1 ==> p.workers == 1)
  {
    Plan(cases, models, AtLeastOne(n), AtLeastOne(workers))
  }

  // ---- the jobs, in the order of the loops ------------------------------------------------------------------

  function JobsOfCell(ci: nat, mi: nat, n: nat): seq<Job> {
    if n == 0 then [] else JobsOfCell(ci, mi, n - 1) + [Job(ci, mi, n - 1)]
  }

  function JobsOfCase(ci: nat, models: nat, n: nat): seq<Job> {
    if models == 0 then [] else JobsOfCase(ci, models - 1, n) + JobsOfCell(ci, models - 1, n)
  }

  function JobsOf(cases: nat, models: nat, n: nat): seq<Job> {
    if cases == 0 then [] else JobsOf(cases - 1, models, n) + JobsOfCase(cases - 1, models, n)
  }

  predicate Distinct<T(==)>(s: seq<T>) {
    forall i, j :: 0 <= i < j < |s| ==> s[i] != s[j]
  }

  lemma DistinctConcat<T>(s: seq<T>, t: seq<T>)
    requires Distinct(s) && Distinct(t) && forall x :: x in s ==> x !in t
    ensures Distinct(s + t)
  {
    forall i, j | 0 <= i < j < |s + t| ensures (s + t)[i] != (s + t)[j] {
      if i < |s| <= j {
        assert s[i] in s;
      }
    }
  }

  lemma InConcat<T>(s: seq<T>, t: seq<T>)
    ensures forall x :: x in s + t <==> x in s || x in t
  {
  }

  lemma NoneTwice<T>()
    ensures Distinct<T>([])
  {
  }

  lemma {:induction false} CellJobs(ci: nat, mi: nat, n: nat)
    ensures Distinct(JobsOfCell(ci, mi, n))
    ensures forall j :: j in JobsOfCell(ci, mi, n) <==> j.ci == ci && j.mi == mi && j.idx < n
  {
    if n > 0 {
      CellJobs(ci, mi, n - 1);
      DistinctConcat(JobsOfCell(ci, mi, n - 1), [Job(ci, mi, n - 1)]);
    }
  }

  lemma {:induction false} CaseJobs(ci: nat, models: nat, n: nat)
    ensures Distinct(JobsOfCase(ci, models, n))
    ensures forall j :: j in JobsOfCase(ci, models, n) <==> j.ci == ci && j.mi < models && j.idx < n
  {
    hide JobsOfCell, Distinct;
    if models > 0 {
      CaseJobs(ci, models - 1, n);
      CellJobs(ci, models - 1, n);
      var before, last := JobsOfCase(ci, models - 1, n), JobsOfCell(ci, models - 1, n);
      DistinctConcat(before, last);
      InConcat(before, last);
    } else {
      NoneTwice<Job>();
    }
  }

  /** The loops go through every trial once. */
  lemma {:induction false} EveryJobOnce(cases: nat, models: nat, n: nat)
    ensures Distinct(JobsOf(cases, models, n))
    ensures forall j :: j in JobsOf(cases, models, n) <==> j.ci < cases && j.mi < models && j.idx < n
  {
    hide JobsOfCase, Distinct;
    if cases == 0 {
      NoneTwice<Job>();
    }
    if cases > 0 {
      EveryJobOnce(cases - 1, models, n);
      CaseJobs(cases - 1, models, n);
      DistinctConcat(JobsOf(cases - 1, models, n), JobsOfCase(cases - 1, models, n));
    }
  }

  // ---- cells and slots -----------------------------------------------------------------------------------------

  type Index = map<(nat, nat), nat>

  /** The cells are those of the plan, one for each case and model, and the index finds them. */
  ghost predicate Indexed(p: Plan, cells: seq<Cell>, cellOf: Index) {
    && (forall ci: nat, mi: nat :: (ci, mi) in cellOf <==> ci < p.cases && mi < p.models)
    && (forall key :: key in cellOf ==> cellOf[key] < |cells| && (cells[cellOf[key]].ci, cells[cellOf[key]].mi) == key)
    && (forall c :: 0 <= c < |cells| ==>
         (cells[c].ci, cells[c].mi) in cellOf && cellOf[(cells[c].ci, cells[c].mi)] == c)
    && (forall c :: 0 <= c < |cells| ==> |cells[c].trials| == p.n)
  }

  /** The index that report order gives: the cells of a case stand together, in the order of the models. */
  ghost predicate ReportOrder(p: Plan, cellOf: Index) {
    && (forall ci: nat, mi: nat :: (ci, mi) in cellOf <==> ci < p.cases && mi < p.models)
    && forall ci: nat, mi: nat :: (ci, mi) in cellOf ==> cellOf[(ci, mi)] == ci * p.models + mi
  }

  /** There is one such index. */
  lemma ReportOrderIsUnique(p: Plan, index1: Index, index2: Index)
    requires ReportOrder(p, index1) && ReportOrder(p, index2)
    ensures index1 == index2
  {
    forall key | key in index1.Keys + index2.Keys ensures key in index1 && key in index2 && index1[key] == index2[key] {
      assert key == (key.0, key.1);
    }
  }

  /** The cells so far: those of the first ci cases, and of the first mi models of the next case. */
  ghost predicate Laid(p: Plan, ci: nat, mi: nat, cells: seq<Cell>, cellOf: Index) {
    && (forall a: nat, b: nat :: (a, b) in cellOf <==> (a < ci && b < p.models) || (a == ci && b < mi))
    && (forall key :: key in cellOf ==> cellOf[key] < |cells| && (cells[cellOf[key]].ci, cells[cellOf[key]].mi) == key)
    && (forall c :: 0 <= c < |cells| ==>
         (cells[c].ci, cells[c].mi) in cellOf && cellOf[(cells[c].ci, cells[c].mi)] == c)
    && (forall c :: 0 <= c < |cells| ==> cells[c].trials == Unwritten(p))
    && |cells| == ci * p.models + mi && forall a: nat, b: nat :: (a, b) in cellOf ==> cellOf[(a, b)] == a * p.models + b
  }

  function Unwritten(p: Plan): (ts: seq<Option<Trial>>)
    ensures |ts| == p.n && forall i :: 0 <= i < p.n ==> ts[i] == None
  {
    seq(p.n, i requires 0 <= i < p.n => None)
  }

  lemma OneMoreLaid(p: Plan, ci: nat, mi: nat, cells: seq<Cell>, cellOf: Index)
    requires Laid(p, ci, mi, cells, cellOf) && mi < p.models
    ensures Laid(p, ci, mi + 1, cells + [Cell(ci, mi, Unwritten(p))], cellOf[(ci, mi) := |cells|])
  {
    hide Unwritten;
  }

  lemma RowLaid(p: Plan, ci: nat, cells: seq<Cell>, cellOf: Index)
    ensures Laid(p, 0, 0, [], map[])
    ensures Laid(p, ci, p.models, cells, cellOf) ==> Laid(p, ci + 1, 0, cells, cellOf)
    ensures Laid(p, p.cases, 0, cells, cellOf) ==> Indexed(p, cells, cellOf)
  {
    hide Unwritten;
  }

  /** Preallocates the cells, in report order. */
  method Preallocate(p: Plan) returns (cells: seq<Cell>, cellOf: Index)
    ensures Indexed(p, cells, cellOf)
    ensures forall c :: 0 <= c < |cells| ==> cells[c].trials == Unwritten(p)
    ensures |cells| == p.cases * p.models && ReportOrder(p, cellOf)
  {
    hide Laid, Indexed, Unwritten;
    cells, cellOf := [], map[];
    RowLaid(p, 0, cells, cellOf);
    for ci := 0 to p.cases
      invariant Laid(p, ci, 0, cells, cellOf)
    {
      for mi := 0 to p.models
        invariant Laid(p, ci, mi, cells, cellOf)
      {
        OneMoreLaid(p, ci, mi, cells, cellOf);
        cellOf := cellOf[(ci, mi) := |cells|];
        cells := cells + [Cell(ci, mi, Unwritten(p))];
      }
      RowLaid(p, ci, cells, cellOf);
    }
    RowLaid(p, 0, cells, cellOf);
    AllUnwritten(p, cells, cellOf);
  }

  lemma AllUnwritten(p: Plan, cells: seq<Cell>, cellOf: Index)
    requires Laid(p, p.cases, 0, cells, cellOf)
    ensures forall c :: 0 <= c < |cells| ==> cells[c].trials == Unwritten(p)
    ensures |cells| == p.cases * p.models && ReportOrder(p, cellOf)
  {
  }

  function Slot(p: Plan, cells: seq<Cell>, cellOf: Index, j: Job): Option<Trial>
    requires Indexed(p, cells, cellOf) && p.Has(j)
  {
    cells[cellOf[(j.ci, j.mi)]].trials[j.idx]
  }

  function Written(p: Plan, cells: seq<Cell>, cellOf: Index, j: Job, t: Trial): seq<Cell>
    requires Indexed(p, cells, cellOf) && p.Has(j)
  {
    var c := cellOf[(j.ci, j.mi)];
    cells[c := cells[c].(trials := cells[c].trials[j.idx := Some(t)])]
  }

  /** No two jobs share a slot. */
  lemma WritesOneSlot(p: Plan, cells: seq<Cell>, cellOf: Index, j: Job, t: Trial)
    requires Indexed(p, cells, cellOf) && p.Has(j)
    ensures Indexed(p, Written(p, cells, cellOf, j, t), cellOf)
    ensures forall k :: p.Has(k) ==>
                          Slot(p, Written(p, cells, cellOf, j, t), cellOf, k) == if k == j then Some(t)
                            else Slot(p, cells, cellOf, k)
  {
    var c, out := cellOf[(j.ci, j.mi)], Written(p, cells, cellOf, j, t);
    assert forall d :: 0 <= d < |cells| ==>
             out[d].ci == cells[d].ci && out[d].mi == cells[d].mi && |out[d].trials| == |cells[d].trials|;
  }

  function TrialOf(run: Runner, j: Job): Trial {
    run(j.ci, j.mi, j.idx + 1)
  }

  /**
   The report that a sweep promises: the cells of a case stand together, in the order of the models, and
   in each of them trial number idx + 1 stands at place idx.
  */
  ghost predicate InPlace(p: Plan, run: Runner, cells: seq<Cell>) {
    && |cells| == p.cases * p.models
    && (forall c :: 0 <= c < |cells| ==>
         && cells[c].ci < p.cases && cells[c].mi < p.models && c == cells[c].ci * p.models + cells[c].mi
         && |cells[c].trials| == p.n)
    && forall j: Job :: p.Has(j) ==>
         var c := j.ci * p.models + j.mi;
         c < |cells| && |cells[c].trials| == p.n && cells[c].trials[j.idx] == Some(run(j.ci, j.mi, j.idx + 1))
  }

  /** The trials in the order of the loops. */
  ghost predicate InLoopOrder(p: Plan, run: Runner, trials: seq<Trial>) {
    && |trials| == p.cases * p.models * p.n
    && forall j: Job :: p.Has(j) ==> var k := Place(p.models, p.n, j);
         k < |trials| && trials[k] == run(j.ci, j.mi, j.idx + 1)
  }

  /** The place of a job in the order of the loops. */
  function Place(models: nat, n: nat, j: Job): nat {
    (j.ci * models + j.mi) * n + j.idx
  }

  /** The trials of the given jobs stand in their places. */
  ghost predicate Filled(p: Plan, run: Runner, cells: seq<Cell>, cellOf: Index, jobs: seq<Job>) {
    Indexed(p, cells, cellOf) && forall j :: j in jobs ==>
        p.Has(j) && Slot(p, cells, cellOf, j) == Some(TrialOf(run, j))
  }

  /** The report of a sweep: every trial of every case with every model, in its place. */
  ghost predicate Complete(p: Plan, run: Runner, cells: seq<Cell>, cellOf: Index) {
    Indexed(p, cells, cellOf) && forall j :: p.Has(j) ==> Slot(p, cells, cellOf, j) == Some(TrialOf(run, j))
  }

  /** That is what a complete report in report order is. */
  lemma CompleteInPlace(p: Plan, run: Runner, cells: seq<Cell>, cellOf: Index)
    requires Complete(p, run, cells, cellOf) && ReportOrder(p, cellOf)
    ensures InPlace(p, run, cells)
  {
    CellCount(p, cells, cellOf);
    forall j: Job | p.Has(j)
      ensures var c := j.ci * p.models + j.mi;
              c < |cells| && |cells[c].trials| == p.n && cells[c].trials[j.idx] == Some(run(j.ci, j.mi, j.idx + 1))
    {
      assert Slot(p, cells, cellOf, j) == Some(TrialOf(run, j));
      assert (j.ci, j.mi) in cellOf;
    }
  }

  lemma CellCount(p: Plan, cells: seq<Cell>, cellOf: Index)
    requires Indexed(p, cells, cellOf) && ReportOrder(p, cellOf)
    ensures |cells| == p.cases * p.models
    ensures forall c :: 0 <= c < |cells| ==>
              && cells[c].ci < p.cases && cells[c].mi < p.models && c == cells[c].ci * p.models + cells[c].mi
  {
    if p.cases > 0 && p.models > 0 {
      assert (p.cases - 1, p.models - 1) in cellOf;
      LastCell(p.cases, p.models);
    }
    forall c | 0 <= c < |cells|
      ensures cells[c].ci < p.cases && cells[c].mi < p.models && c == cells[c].ci * p.models + cells[c].mi
    {
      assert (cells[c].ci, cells[c].mi) in cellOf;
    }
    if |cells| > 0 {
      var c := |cells| - 1;
      CellFits(p.cases, p.models, cells[c].ci, cells[c].mi);
    }
  }

  lemma LastCell(cases: nat, models: nat)
    requires cases > 0
    ensures (cases - 1) * models + (models - 1) == cases * models - 1
  {
  }

  lemma CellFits(cases: nat, models: nat, ci: nat, mi: nat)
    requires ci < cases && mi < models
    ensures ci * models + mi < cases * models
    ensures ci * models + models <= cases * models
  {
    LastCell(cases, models);
    assert ci * models <= (cases - 1) * models;
  }

  lemma AllFilled(p: Plan, run: Runner, cells: seq<Cell>, cellOf: Index)
    requires Filled(p, run, cells, cellOf, JobsOf(p.cases, p.models, p.n))
    ensures Complete(p, run, cells, cellOf)
  {
    EveryJobOnce(p.cases, p.models, p.n);
    hide Indexed, Slot, TrialOf;
    forall j | p.Has(j) ensures Slot(p, cells, cellOf, j) == Some(TrialOf(run, j)) {
      assert j in JobsOf(p.cases, p.models, p.n);
    }
  }

  /** Two complete reports over the same cells are the same report. */
  lemma CompleteIsUnique(p: Plan, run: Runner, cells1: seq<Cell>, cells2: seq<Cell>, cellOf: Index)
    requires Complete(p, run, cells1, cellOf) && Complete(p, run, cells2, cellOf)
    ensures cells1 == cells2
  {
    SameCount(p, cells1, cells2, cellOf);
    SameCount(p, cells2, cells1, cellOf);
    forall c | 0 <= c < |cells1| ensures cells1[c] == cells2[c] {
      var ci, mi := cells1[c].ci, cells1[c].mi;
      SameCell(p, cells1, cells2, cellOf, c);
      forall i | 0 <= i < p.n ensures cells1[c].trials[i] == cells2[c].trials[i] {
        assert p.Has(Job(ci, mi, i));
      }
    }
  }

  lemma SameCount(p: Plan, cells1: seq<Cell>, cells2: seq<Cell>, cellOf: Index)
    requires Indexed(p, cells1, cellOf) && Indexed(p, cells2, cellOf)
    ensures |cells1| <= |cells2|
  {
    if |cells1| > 0 {
      var c := |cells1| - 1;
      assert cellOf[(cells1[c].ci, cells1[c].mi)] == c;
    }
  }

  lemma SameCell(p: Plan, cells1: seq<Cell>, cells2: seq<Cell>, cellOf: Index, c: nat)
    requires Indexed(p, cells1, cellOf) && Indexed(p, cells2, cellOf) && |cells1| == |cells2| && c < |cells1|
    ensures cells2[c].ci == cells1[c].ci && cells2[c].mi == cells1[c].mi && cellOf[(cells1[c].ci, cells1[c].mi)] == c
  {
    var key := (cells2[c].ci, cells2[c].mi);
    assert cellOf[key] == c && (cells1[cellOf[key]].ci, cells1[cellOf[key]].mi) == key;
  }

  lemma OneMoreFilled(p: Plan, run: Runner, cells: seq<Cell>, cellOf: Index, jobs: seq<Job>, j: Job)
    requires Filled(p, run, cells, cellOf, jobs) && p.Has(j)
    ensures Filled(p, run, Written(p, cells, cellOf, j, TrialOf(run, j)), cellOf, jobs + [j])
  {
    WritesOneSlot(p, cells, cellOf, j, TrialOf(run, j));
    hide Indexed, Slot, Written, TrialOf;
  }

  // ---- one trial after the other --------------------------------------------------------------------------------

  /** The sweep with one worker: done is what the callback is told, in order. */
  method RunSequential(p: Plan, run: Runner) returns (cells: seq<Cell>, cellOf: Index, done: seq<Trial>)
    ensures Complete(p, run, cells, cellOf) && ReportOrder(p, cellOf)
    ensures done == TrialsOf(run, JobsOf(p.cases, p.models, p.n))
    ensures InPlace(p, run, cells) && InLoopOrder(p, run, done)
  {
    hide *;
    cells, cellOf := Preallocate(p);
    done := [];
    NothingDone(p, run, cells, cellOf);
    ghost var did: seq<Job> := [];
    for ci := 0 to p.cases
      invariant Filled(p, run, cells, cellOf, did) && done == TrialsOf(run, did) && did == JobsOf(ci, p.models, p.n)
    {
      CaseStarts(ci, p.n);
      ghost var before := did;
      for mi := 0 to p.models
        invariant Filled(p, run, cells, cellOf, did) && done == TrialsOf(run, did)
        invariant did == before + JobsOfCase(ci, mi, p.n)
      {
        CellStarts(ci, mi);
        ghost var outer := did;
        for idx := 0 to p.n
          invariant Filled(p, run, cells, cellOf, did) && done == TrialsOf(run, did)
          invariant did == outer + JobsOfCell(ci, mi, idx)
        {
          var j := Job(ci, mi, idx);
          var t := TrialOf(run, j);
          FilledIndexed(p, run, cells, cellOf, did, j);
          OneMoreFilled(p, run, cells, cellOf, did, j);
          OneMoreTold(run, did, j);
          LoopStep(ci, mi, idx);
          cells := Written(p, cells, cellOf, j, t);
          done := done + [t];
          assert did + [j] == outer + (JobsOfCell(ci, mi, idx) + [j]);
          did := did + [j];
        }
        CaseStep(ci, mi, p.n);
        assert did == before + (JobsOfCase(ci, mi, p.n) + JobsOfCell(ci, mi, p.n));
      }
      PlanStep(ci, p.models, p.n);
    }
    AllFilled(p, run, cells, cellOf);
    CompleteInPlace(p, run, cells, cellOf);
    TrialsInOrder(p, run);
  }

  function TrialsOf(run: Runner, jobs: seq<Job>): seq<Trial> {
    seq(|jobs|, i requires 0 <= i < |jobs| => TrialOf(run, jobs[i]))
  }

  lemma {:induction false} CellAt(ci: nat, mi: nat, n: nat)
    ensures |JobsOfCell(ci, mi, n)| == n
    ensures forall idx :: 0 <= idx < n ==> JobsOfCell(ci, mi, n)[idx] == Job(ci, mi, idx)
  {
    if n > 0 {
      CellAt(ci, mi, n - 1);
    }
  }

  lemma {:induction false} CaseAt(ci: nat, models: nat, n: nat, mi: nat, idx: nat)
    ensures |JobsOfCase(ci, models, n)| == models * n
    ensures mi < models && idx < n ==>
              mi * n + idx < models * n && JobsOfCase(ci, models, n)[mi * n + idx] == Job(ci, mi, idx)
    decreases models
  {
    hide *;
    if models == 0 {
      NoCells(ci, n);
    } else {
      CaseAt(ci, models - 1, n, mi, idx);
      CellAt(ci, models - 1, n);
      CaseStep(ci, models - 1, n);
      LastCell(models, n);
      if mi < models - 1 && idx < n {
        CellFits(models - 1, n, mi, idx);
      }
    }
  }

  lemma {:induction false} NoCells(ci: nat, n: nat)
    ensures JobsOfCase(ci, 0, n) == [] && 0 * n == 0
  {
  }

  /** Where a job stands in the order of the loops. */
  lemma {:induction false} JobAt(cases: nat, models: nat, n: nat, j: Job)
    ensures |JobsOf(cases, models, n)| == cases * models * n
    ensures j.ci < cases && j.mi < models && j.idx < n ==>
              Place(models, n, j) < cases * models * n && JobsOf(cases, models, n)[Place(models, n, j)] == j
    decreases cases
  {
    hide *;
    if cases == 0 {
      NoJobs(models, n);
    } else {
      JobAt(cases - 1, models, n, j);
      CaseAt(cases - 1, models, n, j.mi, j.idx);
      PlanStep(cases - 1, models, n);
      OneMoreCase(cases, models, n);
      if j.ci < cases && j.mi < models && j.idx < n {
        PlaceOf(cases, models, n, j);
      }
    }
  }

  lemma {:induction false} NoJobs(models: nat, n: nat)
    ensures JobsOf(0, models, n) == [] && 0 * models * n == 0
  {
  }

  lemma OneMoreCase(cases: nat, models: nat, n: nat)
    requires cases > 0
    ensures cases * models * n == (cases - 1) * models * n + models * n
  {
    assert cases * models == (cases - 1) * models + models;
  }

  /** A job of the last case comes after all earlier cases, any other one among them. */
  lemma PlaceOf(cases: nat, models: nat, n: nat, j: Job)
    requires j.ci < cases && j.mi < models && j.idx < n
    ensures var k, before := Place(models, n, j), (cases - 1) * models * n;
            && k < cases * models * n
            && if j.ci < cases - 1 then k < before else k == before + (j.mi * n + j.idx)
  {
    CellFits(cases, models, j.ci, j.mi);
    CellFits(cases * models, n, j.ci * models + j.mi, j.idx);
    if j.ci < cases - 1 {
      CellFits(cases - 1, models, j.ci, j.mi);
      CellFits((cases - 1) * models, n, j.ci * models + j.mi, j.idx);
    }
  }

  lemma TrialsInOrder(p: Plan, run: Runner)
    ensures InLoopOrder(p, run, TrialsOf(run, JobsOf(p.cases, p.models, p.n)))
  {
    hide *;
    var jobs := JobsOf(p.cases, p.models, p.n);
    JobAt(p.cases, p.models, p.n, Job(0, 0, 0));
    forall j: Job | p.Has(j)
      ensures Place(p.models, p.n, j) < |jobs| && jobs[Place(p.models, p.n, j)] == j
    {
      HasMeans(p, j);
      JobAt(p.cases, p.models, p.n, j);
    }
    RunInOrder(p, run, jobs);
  }

  lemma HasMeans(p: Plan, j: Job)
    ensures p.Has(j) <==> j.ci < p.cases && j.mi < p.models && j.idx < p.n
  {
  }

  lemma RunInOrder(p: Plan, run: Runner, jobs: seq<Job>)
    requires |jobs| == p.cases * p.models * p.n
    requires forall j: Job :: p.Has(j) ==> Place(p.models, p.n, j) < |jobs| && jobs[Place(p.models, p.n, j)] == j
    ensures InLoopOrder(p, run, TrialsOf(run, jobs))
  {
    hide Place, p.Has;
  }

  lemma NothingDone(p: Plan, run: Runner, cells: seq<Cell>, cellOf: Index)
    requires Indexed(p, cells, cellOf)
    ensures Filled(p, run, cells, cellOf, []) && TrialsOf(run, []) == [] && JobsOf(0, p.models, p.n) == []
  {
  }

  lemma {:induction false} CaseStarts(ci: nat, n: nat)
    ensures JobsOfCase(ci, 0, n) == []
  {
  }

  lemma {:induction false} CellStarts(ci: nat, mi: nat)
    ensures JobsOfCell(ci, mi, 0) == []
  {
  }

  lemma LoopStep(ci: nat, mi: nat, idx: nat)
    ensures JobsOfCell(ci, mi, idx + 1) == JobsOfCell(ci, mi, idx) + [Job(ci, mi, idx)]
  {
  }

  lemma CaseStep(ci: nat, mi: nat, n: nat)
    ensures JobsOfCase(ci, mi + 1, n) == JobsOfCase(ci, mi, n) + JobsOfCell(ci, mi, n)
  {
  }

  lemma PlanStep(ci: nat, models: nat, n: nat)
    ensures JobsOf(ci + 1, models, n) == JobsOf(ci, models, n) + JobsOfCase(ci, models, n)
  {
  }

  lemma FilledIndexed(p: Plan, run: Runner, cells: seq<Cell>, cellOf: Index, jobs: seq<Job>, j: Job)
    requires Filled(p, run, cells, cellOf, jobs) && j.ci < p.cases && j.mi < p.models && j.idx < p.n
    ensures Indexed(p, cells, cellOf) && p.Has(j)
  {
  }

  lemma OneMoreTold(run: Runner, jobs: seq<Job>, j: Job)
    ensures TrialsOf(run, jobs + [j]) == TrialsOf(run, jobs) + [TrialOf(run, j)]
  {
  }

  // ---- the goroutines -------------------------------------------------------------------------------------------

  /** A goroutine holds a place of the semaphore from when it is spawned until it frees it. */
  datatype Phase = Idle | Running | Wrote | Told | Freed | Done

  /** told are the trials that the callback was told of, by job, and heard what it was told. */
  datatype State = State(next: nat, phases: seq<Phase>, cells: seq<Cell>, told: seq<Job>, heard: seq<Trial>)

  /** Spawn takes a place of the semaphore and starts the next goroutine; the rest is what goroutine k does. */
  datatype Action = Spawn | Write(k: nat) | Tell(k: nat) | Free(k: nat) | Finish(k: nat)

  function Rank(ph: Phase): nat {
    match ph case Idle => 0 case Running => 1 case Wrote => 2 case Told => 3 case Freed => 4 case Done => 5
  }

  predicate Holds(ph: Phase) {
    1 <= Rank(ph) <= 3
  }

  /** The trials in flight. */
  function InFlight(phases: seq<Phase>): nat {
    if phases == [] then 0 else InFlight(phases[..|phases| - 1]) + if Holds(phases[|phases| - 1]) then 1 else 0
  }

  /** They are the goroutines that have been spawned, and have not freed their place yet. */
  lemma {:induction false} InFlightCounts(phases: seq<Phase>)
    ensures InFlight(phases) ==
            |set k | 0 <= k < |phases| && (phases[k].Running? || phases[k].Wrote? || phases[k].Told?)|
  {
    if phases != [] {
      var n := |phases| - 1;
      InFlightCounts(phases[..n]);
      var before := set k | 0 <= k < n && (phases[..n][k].Running? || phases[..n][k].Wrote? || phases[..n][k].Told?);
      var all := set k | 0 <= k < |phases| && (phases[k].Running? || phases[k].Wrote? || phases[k].Told?);
      assert all == before + if phases[n].Running? || phases[n].Wrote? || phases[n].Told? then {n} else {};
    }
  }

  function Work(phases: seq<Phase>): nat {
    if phases == [] then 0 else Work(phases[..|phases| - 1]) + Rank(phases[|phases| - 1])
  }

  lemma {:induction false} MovePhase(phases: seq<Phase>, k: nat, ph: Phase)
    requires k < |phases|
    ensures Work(phases[k := ph]) == Work(phases) - Rank(phases[k]) + Rank(ph)
    ensures InFlight(phases[k := ph]) == InFlight(phases) - (if Holds(phases[k]) then 1 else 0) + if Holds(ph) then 1
            else 0
  {
    var n := |phases| - 1;
    if k < n {
      MovePhase(phases[..n], k, ph);
      assert phases[k := ph][..n] == phases[..n][k := ph];
    } else {
      assert phases[k := ph][..n] == phases[..n];
    }
  }

  /** Everything that stays the same during a sweep. */
  datatype Setting = Setting(p: Plan, run: Runner, cellOf: Index) {
    function Jobs(): seq<Job> { JobsOf(p.cases, p.models, p.n) }
  }

  /** The goroutine of job k moves on. */
  predicate Moves(s: State, k: nat, a: Phase, b: Phase, s': State) {
    k < |s.phases| && s.phases[k] == a && s'.phases == s.phases[k := b]
  }

  ghost predicate Next(e: Setting, s: State, a: Action, s': State) {
    && |s.phases| == |e.Jobs()| && Indexed(e.p, s.cells, e.cellOf)
    && match a
       case Spawn =>
         && InFlight(s.phases) < e.p.workers && Moves(s, s.next, Idle, Running, s')
         && s'.next == s.next + 1 && s'.cells == s.cells && s'.told == s.told && s'.heard == s.heard
       case Write(k) =>
         && Moves(s, k, Running, Wrote, s') && s'.next == s.next && s'.told == s.told && s'.heard == s.heard
         && e.p.Has(e.Jobs()[k])
            && s'.cells == Written(e.p, s.cells, e.cellOf, e.Jobs()[k], TrialOf(e.run, e.Jobs()[k]))
       case Tell(k) =>
         && Moves(s, k, Wrote, Told, s') && s'.next == s.next && s'.cells == s.cells
         && s'.told == s.told + [e.Jobs()[k]] && s'.heard == s.heard + [TrialOf(e.run, e.Jobs()[k])]
       case Free(k) =>
         && Moves(s, k, Told, Freed, s') && s'.next == s.next && s'.cells == s.cells
         && s'.told == s.told && s'.heard == s.heard
       case Finish(k) =>
         && Moves(s, k, Freed, Done, s') && s'.next == s.next && s'.cells == s.cells
         && s'.told == s.told && s'.heard == s.heard
  }

  ghost predicate Initial(e: Setting, s: State) {
    && s.next == 0 && s.told == [] && s.heard == [] && |s.phases| == |e.Jobs()|
       && (forall k :: 0 <= k < |s.phases| ==> s.phases[k].Idle?)
    && Indexed(e.p, s.cells, e.cellOf) && forall j :: e.p.Has(j) ==> Slot(e.p, s.cells, e.cellOf, j) == None
  }

  /** A sweep starts with its cells preallocated and nothing spawned. */
  method Start(cases: nat, models: nat, n: int, workers: int, run: Runner) returns (e: Setting, s: State)
    ensures Initial(e, s) && ReportOrder(e.p, e.cellOf) && e.p == MakePlan(cases, models, n, workers) && e.run == run
  {
    var p := MakePlan(cases, models, n, workers);
    var cells, cellOf := Preallocate(p);
    e := Setting(p, run, cellOf);
    s := State(0, seq(|e.Jobs()|, k requires 0 <= k < |e.Jobs()| => Idle), cells, [], []);
    hide JobsOf;
  }

  /** The main goroutine waits until all are done. */
  predicate Terminal(e: Setting, s: State) {
    s.next == |s.phases| && forall k :: 0 <= k < |s.phases| ==> s.phases[k].Done?
  }

  // ---- what every interleaving keeps ----------------------------------------------------------------------------

  ghost predicate SlotsRight(e: Setting, s: State) {
    && Indexed(e.p, s.cells, e.cellOf) && |s.phases| == |e.Jobs()|
    && forall k :: 0 <= k < |s.phases| ==>
         e.p.Has(e.Jobs()[k])
         && Slot(e.p, s.cells, e.cellOf, e.Jobs()[k]) == if Rank(s.phases[k]) >= 2 then
            Some(TrialOf(e.run, e.Jobs()[k])) else None
  }

  ghost predicate ToldRight(e: Setting, s: State) {
    && |s.phases| == |e.Jobs()| && Distinct(s.told) && (forall j :: j in s.told ==> j in e.Jobs())
    && s.heard == TrialsOf(e.run, s.told)
    && forall k :: 0 <= k < |s.phases| ==> (e.Jobs()[k] in s.told <==> Rank(s.phases[k]) >= 3)
  }

  predicate Counted(e: Setting, s: State) {
    && s.next <= |s.phases| && (forall k :: 0 <= k < |s.phases| ==> (s.phases[k].Idle? <==> k >= s.next))
    && InFlight(s.phases) <= e.p.workers
  }

  ghost predicate Inv(e: Setting, s: State) {
    && Counted(e, s) && SlotsRight(e, s) && ToldRight(e, s)
  }

  lemma {:induction false} AllIdle(phases: seq<Phase>)
    requires forall k :: 0 <= k < |phases| ==> phases[k].Idle?
    ensures InFlight(phases) == 0 && Work(phases) == 0
  {
    if phases != [] {
      AllIdle(phases[..|phases| - 1]);
    }
  }

  lemma {:induction false} AllDone(phases: seq<Phase>)
    requires forall k :: 0 <= k < |phases| ==> phases[k].Done?
    ensures Work(phases) == 5 * |phases|
  {
    if phases != [] {
      AllDone(phases[..|phases| - 1]);
    }
  }

  lemma InitialInv(e: Setting, s: State)
    requires Initial(e, s)
    ensures Inv(e, s) && Work(s.phases) == 0
  {
    EveryJobOnce(e.p.cases, e.p.models, e.p.n);
    AllIdle(s.phases);
    NothingHeard(e.run);
    hide Indexed, InFlight, Work, JobsOf, Slot, TrialsOf, TrialOf;
  }

  lemma NothingHeard(run: Runner)
    ensures TrialsOf(run, []) == []
  {
  }

  lemma StepSlots(e: Setting, s: State, a: Action, s': State)
    requires SlotsRight(e, s) && Next(e, s, a, s')
    ensures SlotsRight(e, s')
  {
    EveryJobOnce(e.p.cases, e.p.models, e.p.n);
    hide Indexed, InFlight, JobsOf, Slot, Written, TrialOf;
    if a.Write? {
      WritesOneSlot(e.p, s.cells, e.cellOf, e.Jobs()[a.k], TrialOf(e.run, e.Jobs()[a.k]));
    }
  }

  lemma StepTold(e: Setting, s: State, a: Action, s': State)
    requires ToldRight(e, s) && Next(e, s, a, s')
    ensures ToldRight(e, s')
  {
    EveryJobOnce(e.p.cases, e.p.models, e.p.n);
    hide Indexed, InFlight, JobsOf, Slot, Written, TrialOf;
    if a.Tell? {
      var j := e.Jobs()[a.k];
      assert j !in s.told;
      DistinctConcat(s.told, [j]);
      OneMoreTold(e.run, s.told, j);
    }
  }

  /**
   A step keeps the invariant and does one unit of work; a slot is written when it is empty, and only
   then changes.
  */
  lemma StepKeeps(e: Setting, s: State, a: Action, s': State)
    requires Inv(e, s) && Next(e, s, a, s')
    ensures Inv(e, s') && Work(s'.phases) == Work(s.phases) + 1
    ensures !a.Write? ==> s'.cells == s.cells
    ensures a.Write? ==> e.p.Has(e.Jobs()[a.k]) && Slot(e.p, s.cells, e.cellOf, e.Jobs()[a.k]) == None
  {
    hide *;
    InvMeans(e, s, true);
    StepSlots(e, s, a, s');
    StepTold(e, s, a, s');
    StepCounts(e, s, a, s');
    StepCells(e, s, a, s');
    InvMeans(e, s', false);
  }

  lemma InvMeans(e: Setting, s: State, known: bool)
    requires if known then Inv(e, s) else Counted(e, s) && SlotsRight(e, s) && ToldRight(e, s)
    ensures Inv(e, s) && Counted(e, s) && SlotsRight(e, s) && ToldRight(e, s)
  {
    hide Counted, SlotsRight, ToldRight;
  }

  lemma StepCounts(e: Setting, s: State, a: Action, s': State)
    requires Counted(e, s) && Next(e, s, a, s')
    ensures Counted(e, s') && Work(s'.phases) == Work(s.phases) + 1
  {
    hide Indexed, InFlight, Work, JobsOf, Written, TrialOf;
    match a {
      case Spawn => MovePhase(s.phases, s.next, Running);
      case Write(k) => MovePhase(s.phases, k, Wrote);
      case Tell(k) => MovePhase(s.phases, k, Told);
      case Free(k) => MovePhase(s.phases, k, Freed);
      case Finish(k) => MovePhase(s.phases, k, Done);
    }
  }

  lemma StepCells(e: Setting, s: State, a: Action, s': State)
    requires SlotsRight(e, s) && Next(e, s, a, s')
    ensures !a.Write? ==> s'.cells == s.cells
    ensures a.Write? ==> e.p.Has(e.Jobs()[a.k]) && Slot(e.p, s.cells, e.cellOf, e.Jobs()[a.k]) == None
  {
    hide SlotsRight, Indexed, InFlight, JobsOf, Slot, Written, TrialOf;
    if a.Write? {
      EmptyBefore(e, s, a.k);
    }
  }

  lemma EmptyBefore(e: Setting, s: State, k: nat)
    requires SlotsRight(e, s) && k < |s.phases| && s.phases[k].Running?
    ensures e.p.Has(e.Jobs()[k]) && Slot(e.p, s.cells, e.cellOf, e.Jobs()[k]) == None
  {
    hide Indexed, JobsOf, Slot, TrialOf;
  }

  /** A sequence of states that some interleaving goes through. */
  ghost predicate IsRun(e: Setting, ss: seq<State>) {
    && ss != [] && Initial(e, ss[0])
    && forall i :: 0 < i < |ss| ==> Steps(e, ss[i - 1], ss[i])
  }

  ghost predicate Steps(e: Setting, s: State, s': State) {
    exists a :: Next(e, s, a, s')
  }

  lemma {:induction false} EveryStateKeeps(e: Setting, ss: seq<State>, i: nat)
    requires IsRun(e, ss) && i < |ss|
    ensures Inv(e, ss[i]) && Work(ss[i].phases) == i
  {
    hide Inv, Initial, Next, Work;
    if i == 0 {
      InitialInv(e, ss[0]);
    } else {
      EveryStateKeeps(e, ss, i - 1);
      assert Steps(e, ss[i - 1], ss[i]);
      var a :| Next(e, ss[i - 1], a, ss[i]);
      StepKeeps(e, ss[i - 1], a, ss[i]);
    }
  }

  /** A sweep that is not over can go on: the semaphore never blocks it for good. */
  lemma NeverStuck(e: Setting, s: State)
    requires Inv(e, s) && !Terminal(e, s) && e.p.workers >= 1
    ensures exists a, s' :: Next(e, s, a, s')
  {
    hide Indexed, JobsOf, Slot, Written, TrialOf;
    if k :| 0 <= k < |s.phases| && 1 <= Rank(s.phases[k]) <= 4 {
      var ph := s.phases[k];
      match ph {
        case Running =>
          var s' := s.(phases := s.phases[k := Wrote], cells :=
              Written(e.p, s.cells, e.cellOf, e.Jobs()[k], TrialOf(e.run, e.Jobs()[k])));
          assert Next(e, s, Write(k), s');
        case Wrote =>
          assert Next(e, s, Tell(k), s.(phases := s.phases[k := Told], told := s.told + [e.Jobs()[k]],
                                        heard := s.heard + [TrialOf(e.run, e.Jobs()[k])]));
        case Told =>
          assert Next(e, s, Free(k), s.(phases := s.phases[k := Freed]));
        case Freed =>
          assert Next(e, s, Finish(k), s.(phases := s.phases[k := Done]));
      }
    } else {
      NoneHolds(s.phases);
      assert s.next < |s.phases|;
      assert Next(e, s, Spawn, s.(next := s.next + 1, phases := s.phases[s.next := Running]));
    }
  }

  lemma {:induction false} NoneHolds(phases: seq<Phase>)
    requires forall k :: 0 <= k < |phases| ==> !Holds(phases[k])
    ensures InFlight(phases) == 0
  {
    if phases != [] {
      NoneHolds(phases[..|phases| - 1]);
    }
  }

  lemma TerminalComplete(e: Setting, s: State)
    requires Inv(e, s) && Terminal(e, s)
    ensures Complete(e.p, e.run, s.cells, e.cellOf)
    ensures Distinct(s.told) && (forall j :: j in s.told <==> e.p.Has(j)) && s.heard == TrialsOf(e.run, s.told)
    ensures Work(s.phases) == 5 * |e.Jobs()|
  {
    hide *;
    InvMeans(e, s, true);
    SlotsFilled(e, s);
    AllFilled(e.p, e.run, s.cells, e.cellOf);
    ToldAll(e, s);
    AllDone(s.phases);
  }

  lemma SlotsFilled(e: Setting, s: State)
    requires SlotsRight(e, s) && Terminal(e, s)
    ensures Filled(e.p, e.run, s.cells, e.cellOf, JobsOf(e.p.cases, e.p.models, e.p.n))
  {
    hide Indexed, JobsOf, Slot, TrialOf;
  }

  lemma ToldAll(e: Setting, s: State)
    requires ToldRight(e, s) && Terminal(e, s)
    ensures Distinct(s.told) && (forall j :: j in s.told <==> e.p.Has(j)) && s.heard == TrialsOf(e.run, s.told)
    ensures |s.phases| == |e.Jobs()| && forall k :: 0 <= k < |s.phases| ==> s.phases[k].Done?
  {
    EveryJobOnce(e.p.cases, e.p.models, e.p.n);
    hide JobsOf, Distinct;
    forall j | j in e.Jobs() ensures j in s.told {
      var k :| 0 <= k < |e.Jobs()| && e.Jobs()[k] == j;
    }
  }

  /**
   Whatever the interleaving: never more than `workers` trials in flight, five steps for each trial and
   then it is over, the callback told of each trial once, and the report that of the sweep with one worker.
  */
  lemma EveryInterleaving(e: Setting, ss: seq<State>, report: seq<Cell>, index: Index)
    requires IsRun(e, ss) && ReportOrder(e.p, e.cellOf)
    requires Complete(e.p, e.run, report, index) && ReportOrder(e.p, index)
    ensures forall i :: 0 <= i < |ss| ==> InFlight(ss[i].phases) <= e.p.workers
    ensures |ss| - 1 <= 5 * (e.p.cases * e.p.models * e.p.n)
    ensures var last := ss[|ss| - 1];
            Terminal(e, last) ==>
              && last.cells == report && InPlace(e.p, e.run, report) && |ss| - 1 == 5 * (e.p.cases * e.p.models * e.p.n)
              && Distinct(last.told) && (forall j :: j in last.told <==> e.p.Has(j))
              && exists trials :: InLoopOrder(e.p, e.run, trials) && multiset(last.heard) == multiset(trials)
  {
    hide *;
    ReportOrderIsUnique(e.p, e.cellOf, index);
    RunNotEmpty(e, ss);
    forall i | 0 <= i < |ss|
      ensures InFlight(ss[i].phases) <= e.p.workers
    {
      EveryStateKeeps(e, ss, i);
      InvBounds(e, ss[i]);
    }
    var last := ss[|ss| - 1];
    EveryStateKeeps(e, ss, |ss| - 1);
    InvBounds(e, last);
    WorkBounded(last.phases);
    JobAt(e.p.cases, e.p.models, e.p.n, Job(0, 0, 0));
    JobsAre(e);
    CompleteInPlace(e.p, e.run, report, index);
    if Terminal(e, last) {
      TerminalComplete(e, last);
      HeardAll(e, last.told);
      TrialsInOrder(e.p, e.run);
      CompleteIsUnique(e.p, e.run, last.cells, report, e.cellOf);
    }
  }

  lemma JobsAre(e: Setting)
    ensures e.Jobs() == JobsOf(e.p.cases, e.p.models, e.p.n)
  {
  }

  /** Once each job was told of, what was heard are the trials of all of them. */
  lemma HeardAll(e: Setting, told: seq<Job>)
    requires Distinct(told) && forall j :: j in told <==> e.p.Has(j)
    ensures multiset(TrialsOf(e.run, told)) == multiset(TrialsOf(e.run, JobsOf(e.p.cases, e.p.models, e.p.n)))
  {
    EveryJobOnce(e.p.cases, e.p.models, e.p.n);
    hide JobsOf, TrialsOf;
    var jobs := JobsOf(e.p.cases, e.p.models, e.p.n);
    OnceEach(told);
    OnceEach(jobs);
    assert forall j :: j in told <==> j in jobs;
    assert multiset(told) == multiset(jobs);
    SameTrials(e.run, told, jobs);
  }

  lemma {:induction false} OnceEach<T>(s: seq<T>)
    requires Distinct(s)
    ensures forall x :: multiset(s)[x] == if x in s then 1 else 0
  {
    if s != [] {
      var n := |s| - 1;
      assert s == s[..n] + [s[n]];
      OnceEach(s[..n]);
      assert s[n] !in s[..n];
    }
  }

  lemma {:induction false} SameTrials(run: Runner, a: seq<Job>, b: seq<Job>)
    requires multiset(a) == multiset(b)
    ensures multiset(TrialsOf(run, a)) == multiset(TrialsOf(run, b))
    decreases |a|
  {
    hide *;
    assert |a| == |multiset(a)| == |multiset(b)| == |b|;
    if a == [] {
      assert a == b;
    } else {
      var n := |a| - 1;
      var a0, x := a[..n], a[n];
      assert a == a0 + [x];
      assert x in multiset(b);
      var k :| 0 <= k < |b| && b[k] == x;
      var b1, b2 := b[..k], b[k + 1..];
      assert b == b1 + [x] + b2;
      OneMoved(a0, b1 + b2, x, b1, b2);
      SameTrials(run, a0, b1 + b2);
      OneMoreTrial(run, a0, x, b1, b2);
    }
  }

  lemma OneMoreTrial(run: Runner, a: seq<Job>, x: Job, b1: seq<Job>, b2: seq<Job>)
    requires multiset(TrialsOf(run, a)) == multiset(TrialsOf(run, b1 + b2))
    ensures multiset(TrialsOf(run, a + [x])) == multiset(TrialsOf(run, b1 + [x] + b2))
  {
    hide *;
    TrialsConcat(run, a, [x]);
    TrialsConcat(run, b1 + [x], b2);
    TrialsConcat(run, b1, [x]);
    TrialsConcat(run, b1, b2);
  }

  lemma OneMoved(a: seq<Job>, c: seq<Job>, x: Job, b1: seq<Job>, b2: seq<Job>)
    requires multiset(a + [x]) == multiset(b1 + [x] + b2) && c == b1 + b2
    ensures multiset(a) == multiset(c)
  {
    assert multiset(a) == multiset(a + [x]) - multiset{x};
    assert multiset(c) == multiset(b1 + [x] + b2) - multiset{x};
  }

  lemma TrialsConcat(run: Runner, a: seq<Job>, b: seq<Job>)
    ensures TrialsOf(run, a + b) == TrialsOf(run, a) + TrialsOf(run, b)
  {
    hide TrialOf;
  }

  lemma RunNotEmpty(e: Setting, ss: seq<State>)
    requires IsRun(e, ss)
    ensures ss != []
  {
  }

  lemma InvBounds(e: Setting, s: State)
    requires Inv(e, s)
    ensures InFlight(s.phases) <= e.p.workers && |s.phases| == |e.Jobs()|
  {
    hide InFlight, JobsOf;
  }

  /** Completeness of a report does not depend on how many workers filled it. */
  lemma WorkersDoNotMatter(p: Plan, workers: nat, run: Runner, cells: seq<Cell>, cellOf: Index)
    requires Complete(p, run, cells, cellOf) && ReportOrder(p, cellOf)
    ensures Complete(p.(workers := workers), run, cells, cellOf) && ReportOrder(p.(workers := workers), cellOf)
  {
    var q := p.(workers := workers);
    assert Indexed(q, cells, cellOf);
    forall j | q.Has(j) ensures Slot(q, cells, cellOf, j) == Some(TrialOf(run, j)) {
      assert p.Has(j);
    }
  }

  /** Any two finished sweeps of the same trials, with one worker or with many, leave the same report. */
  lemma SweepsAgree(e1: Setting, ss1: seq<State>, e2: Setting, ss2: seq<State>)
    requires IsRun(e1, ss1) && ReportOrder(e1.p, e1.cellOf) && Terminal(e1, ss1[|ss1| - 1])
    requires IsRun(e2, ss2) && ReportOrder(e2.p, e2.cellOf) && Terminal(e2, ss2[|ss2| - 1])
    requires e1.p == e2.p.(workers := e1.p.workers) && e1.run == e2.run
    ensures ss1[|ss1| - 1].cells == ss2[|ss2| - 1].cells
            && multiset(ss1[|ss1| - 1].heard) == multiset(ss2[|ss2| - 1].heard)
  {
    hide *;
    RunNotEmpty(e1, ss1);
    RunNotEmpty(e2, ss2);
    var last1 := ss1[|ss1| - 1];
    EveryStateKeeps(e1, ss1, |ss1| - 1);
    TerminalComplete(e1, last1);
    WorkersDoNotMatter(e1.p, e2.p.workers, e1.run, last1.cells, e1.cellOf);
    EveryInterleaving(e2, ss2, last1.cells, e1.cellOf);
    EveryStateKeeps(e2, ss2, |ss2| - 1);
    TerminalComplete(e2, ss2[|ss2| - 1]);
    HeardAll(e1, last1.told);
    HeardAll(e2, ss2[|ss2| - 1].told);
  }

  lemma {:induction false} WorkBounded(phases: seq<Phase>)
    ensures Work(phases) <= 5 * |phases|
  {
    if phases != [] {
      WorkBounded(phases[..|phases| - 1]);
    }
  }
}
