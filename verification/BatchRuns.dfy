/** Where the two machines meet: the results of a batch's domain runs are what the turn machine takes in. */
module BatchRuns {
  import opened Models
  import Workflow
  import opened Turns
  import DomainTask
  import DomainRuns

  /** `result` came out of some run of the task this request dispatches. */
  ghost predicate CameFrom(b: Workflow.DomainTaskRequest, result: DomainTaskResult) {
    exists rt: DomainTask.Runtime, trace: seq<DomainRuns.Observed>, events: seq<DomainTask.Event> ::
      Ended(rt, b.task, trace, events, result)
  }

  ghost predicate Ended(rt: DomainTask.Runtime, task: Task, trace: seq<DomainRuns.Observed>,
                        events: seq<DomainTask.Event>,
                        result: DomainTaskResult) {
    rt.Valid() && DomainRuns.Run(rt, task, trace, events) && trace[|trace| - 1].s.node == DomainTask.Done(result)
  }

  lemma OneResult(b: Workflow.DomainTaskRequest, result: DomainTaskResult)
    requires CameFrom(b, result)
    ensures result.WellShaped() && result.taskId == b.task.id
  {
    var rt: DomainTask.Runtime, trace: seq<DomainRuns.Observed>, events: seq<DomainTask.Event> :|
      Ended(rt, b.task, trace, events, result);
    DomainRuns.EveryResultIsWellShaped(rt, b.task, trace, events, |trace| - 1);
  }

  /** One finished run per dispatched request makes the results the turn machine's `BatchDone` asks for. */
  lemma RunsMakeABatch(batch: seq<Workflow.DomainTaskRequest>, results: seq<DomainTaskResult>)
    requires |results| == |batch| && forall i :: 0 <= i < |batch| ==> CameFrom(batch[i], results[i])
    requires forall i, j :: 0 <= i < j < |batch| ==> batch[i].task.id != batch[j].task.id
    ensures ResultsFor(batch, results)
  {
    forall i | 0 <= i < |batch|
      ensures results[i].WellShaped() && results[i].taskId == batch[i].task.id
    {
      OneResult(batch[i], results[i]);
    }
    forall x
      ensures x in ResultIds(results) <==> x in BatchIds(batch)
    {
      if x in ResultIds(results) {
        var r :| r in results && r.taskId == x;
        var i :| 0 <= i < |results| && results[i] == r;
        assert batch[i] in batch;
      }
      if x in BatchIds(batch) {
        var b :| b in batch && b.task.id == x;
        var i :| 0 <= i < |batch| && batch[i] == b;
        assert results[i] in results;
      }
    }
  }

  lemma {:induction false} RunnableIdsAreUnique(all: seq<Task>, some: seq<Task>)
    requires UniqueIds(some)
    ensures UniqueIds(Workflow.RunnableAmong(all, some))
  {
    if some != [] {
      var rest := Workflow.RunnableAmong(all, some[1..]);
      RunnableIdsAreUnique(all, some[1..]);
      forall i | 0 <= i < |rest|
        ensures rest[i].id != some[0].id
      {
        assert rest[i] in some[1..];
      }
    }
  }

  lemma BatchTasksAreKnown(parallel: bool, c: Workflow.Conversation)
    requires UniqueIds(c.current.tasks) && Workflow.SelectTask(parallel, c).phase.Executing?
    ensures var next := Workflow.SelectTask(parallel, c);
            && (forall i, j :: 0 <= i < j < |next.phase.batch| ==>
                  next.phase.batch[i].task.id != next.phase.batch[j].task.id)
            && BatchIds(next.phase.batch) <= Ids(next.current.tasks)
  {
    var chosen, next := Workflow.Selected(parallel, c.current.tasks), Workflow.SelectTask(parallel, c);
    RunnableIdsAreUnique(c.current.tasks, c.current.tasks);
    SelectedAreRunnable(parallel, c.current.tasks);
    Workflow.SameIds(c.current.tasks, next.current.tasks);
    BatchNamesChosen(next.phase.batch, chosen);
  }

  /** However each dispatched task's run goes, once all have ended the turn machine can take in their results. */
  lemma FinishedBatchIsTaken(parallel: bool, c: Workflow.Conversation, results: seq<DomainTaskResult>)
    requires UniqueIds(c.current.tasks) && Workflow.SelectTask(parallel, c).phase.Executing?
    requires var batch := Workflow.SelectTask(parallel, c).phase.batch;
             |results| == |batch| && forall i :: 0 <= i < |batch| ==> CameFrom(batch[i], results[i])
    ensures Enabled(Workflow.SelectTask(parallel, c), BatchDone(results))
  {
    var next := Workflow.SelectTask(parallel, c);
    BatchTasksAreKnown(parallel, c);
    RunsMakeABatch(next.phase.batch, results);
    assert forall r <- results :: r.taskId in ResultIds(results);
  }
}
