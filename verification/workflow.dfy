/**
 The task queue of flow.go: tasks are added in order, and `Run` checks
 every task's resources before it hands the queue to the graph builder.
 */
module Workflow {
  import opened Wrappers
  import opened Config
  import opened Resource

  /** A `Commander`: its analysis name, its command, and what its
      `Resources()` method answers. */
  datatype Task = Task(analysisName: string, command: string, resources: Lookup)

  /** The errors `Run` returns. */
  datatype RunError =
    | ResourcesFailed(analysisName: string)  // "failed to get resources for job: ..."
    | NoContainer(analysisName: string)      // "no container specified for task: ..."
    | GraphFailed(cause: string)             // "unable to create graph: ..."

  /** How `Run` ends: it returns an error or nil, or the process exits
      through `log.Fatalf` because the graph failed to run. */
  datatype RunOutcome = Returned(err: Option<RunError>) | Exited(cause: string)
  {
    /** The outcome is one of the validation errors, which `Run` returns
        before the graph builder is called. */
    predicate StoppedInValidation()
    {
      Returned? && err.Some? && !err.value.GraphFailed?
    }
  }

  /** The check `Run` applies to one task: its `Resources()` must not fail
      and must name a container. */
  function Check(t: Task): Option<RunError>
  {
    if t.resources.err.Some? then Some(ResourcesFailed(t.analysisName))
    else if t.resources.resources.container == "" then Some(NoContainer(t.analysisName))
    else None
  }

  predicate Passes(t: Task)
  {
    Check(t).None?
  }

  /** Index `i` holds the first task, in insertion order, that fails. */
  predicate FirstFailure(ts: seq<Task>, i: int)
  {
    0 <= i < |ts| && !Passes(ts[i]) && forall j | 0 <= j < i :: Passes(ts[j])
  }

  /** Validation of a whole queue: the error of the first failing task. */
  function Validate(ts: seq<Task>): (r: Option<RunError>)
    ensures r.None? <==> forall i | 0 <= i < |ts| :: Passes(ts[i])
    ensures r.Some? ==> !r.value.GraphFailed?
  {
    if ts == [] then None
    else if !Passes(ts[0]) then Check(ts[0])
    else
      var rest := Validate(ts[1..]);
      assert forall i | 1 <= i < |ts| :: ts[i] == ts[1..][i - 1];
      rest
  }

  /** What `Run` does, given what the graph builder and the graph's
      `Process` report for these tasks (None is a nil error). */
  function RunSpec(ts: seq<Task>, newGraph: seq<Task> -> Option<string>,
                   process: seq<Task> -> Option<string>): RunOutcome
  {
    match Validate(ts)
    case Some(e) => Returned(Some(e))
    case None =>
      match newGraph(ts)
      case Some(cause) => Returned(Some(GraphFailed(cause)))
      case None =>
        match process(ts)
        case Some(cause) => Exited(cause)
        case None => Returned(None)
  }

  /** The error `Validate` reports is that of the first failing task. */
  lemma {:induction false} ValidateReportsFirstFailure(ts: seq<Task>, i: int)
    requires FirstFailure(ts, i)
    ensures Validate(ts) == Check(ts[i])
  {
    if i > 0 {
      assert Passes(ts[0]);
      assert FirstFailure(ts[1..], i - 1) by {
        forall j | 0 <= j < i - 1 ensures Passes(ts[1..][j]) {
          assert ts[1..][j] == ts[j + 1];
        }
      }
      ValidateReportsFirstFailure(ts[1..], i - 1);
    }
  }

  /** Appending a task never changes an error found among the earlier
      tasks; on a queue that passes, the new task's own check decides. */
  lemma {:induction false} ValidateAppend(ts: seq<Task>, t: Task)
    ensures Validate(ts + [t]) == if Validate(ts).Some? then Validate(ts) else Check(t)
  {
    if ts == [] {
      assert [] + [t] == [t];
    } else {
      assert (ts + [t])[0] == ts[0];
      assert (ts + [t])[1..] == ts[1..] + [t];
      ValidateAppend(ts[1..], t);
    }
  }

  /** On a queue that fails validation, what `Run` does cannot depend on
      the graph builder or the scheduler: neither is reached. */
  lemma InvalidQueueNeverBuildsGraph(ts: seq<Task>,
                                     g1: seq<Task> -> Option<string>, p1: seq<Task> -> Option<string>,
                                     g2: seq<Task> -> Option<string>, p2: seq<Task> -> Option<string>)
    requires exists i | 0 <= i < |ts| :: !Passes(ts[i])
    ensures RunSpec(ts, g1, p1) == RunSpec(ts, g2, p2)
    ensures RunSpec(ts, g1, p1).StoppedInValidation()
  {
  }

  /** For tasks whose `Resources()` delegates to `ResourcesFor` with their
      own analysis name, the container
      check never fires: a queue of them passes exactly when every analysis
      is fully configured, and otherwise fails at the first incomplete one
      with a resources error. */
  lemma {:induction false} ConfiguredQueueValidation(store: Store, ts: seq<Task>)
    requires forall i | 0 <= i < |ts| :: ts[i].resources == ResourcesFor(store, ts[i].analysisName)
    ensures Validate(ts).None? <==> forall i | 0 <= i < |ts| :: Complete(store, ts[i].analysisName)
    ensures Validate(ts).Some? ==>
      exists i | 0 <= i < |ts| ::
        && !Complete(store, ts[i].analysisName)
        && (forall j | 0 <= j < i :: Complete(store, ts[j].analysisName))
        && Validate(ts) == Some(ResourcesFailed(ts[i].analysisName))
  {
    forall i | 0 <= i < |ts|
      ensures Passes(ts[i]) <==> Complete(store, ts[i].analysisName)
      ensures !Passes(ts[i]) ==> Check(ts[i]) == Some(ResourcesFailed(ts[i].analysisName))
    {
    }
    if Validate(ts).Some? {
      var i := FirstFailingIndex(ts);
      ValidateReportsFirstFailure(ts, i);
    }
  }

  /** Some task fails, so there is a first one. */
  ghost function FirstFailingIndex(ts: seq<Task>): (i: int)
    requires exists k | 0 <= k < |ts| :: !Passes(ts[k])
    ensures FirstFailure(ts, i)
  {
    if !Passes(ts[0]) then 0
    else
      assert exists k | 0 <= k < |ts[1..]| :: !Passes(ts[1..][k]) by {
        var k :| 0 <= k < |ts| && !Passes(ts[k]);
        assert ts[1..][k - 1] == ts[k];
      }
      var i' := FirstFailingIndex(ts[1..]);
      assert forall j | 1 <= j <= i' :: ts[j] == ts[1..][j - 1];
      i' + 1
  }

  /** The queue a workflow fills before running it. */
  class Queue {
    var tasks: seq<Task>

    /** The zero value `Queue{}`: no tasks. */
    constructor ()
      ensures tasks == []
    {
      tasks := [];
    }

    /** Appends a task at the end; the earlier tasks and their order stay. */
    method Add(task: Task)
      modifies this
      ensures tasks == old(tasks) + [task]
      ensures |tasks| == |old(tasks)| + 1
      ensures forall i | 0 <= i < |old(tasks)| :: tasks[i] == old(tasks)[i]
      ensures Validate(tasks) == if Validate(old(tasks)).Some? then Validate(old(tasks)) else Check(task)
    {
      ValidateAppend(tasks, task);
      tasks := tasks + [task];
    }

    /**
     Checks every task in insertion order and returns the error of the
     first that fails; only a queue that passes reaches the graph builder
     and then the graph's `Process`. An empty queue passes.
     */
    method Run(newGraph: seq<Task> -> Option<string>, process: seq<Task> -> Option<string>)
      returns (outcome: RunOutcome)
      ensures outcome.StoppedInValidation() <==> exists i | 0 <= i < |tasks| :: !Passes(tasks[i])
      ensures forall i | FirstFailure(tasks, i) :: outcome == Returned(Check(tasks[i]))
      ensures (forall i | 0 <= i < |tasks| :: Passes(tasks[i])) ==>
        outcome == match newGraph(tasks)
                   case Some(cause) => Returned(Some(GraphFailed(cause)))
                   case None => if process(tasks).Some? then Exited(process(tasks).value) else Returned(None)
      ensures outcome == RunSpec(tasks, newGraph, process)
    {
      for i := 0 to |tasks|
        invariant forall j | 0 <= j < i :: Passes(tasks[j])
      {
        // freezeTask(task) rewrites the task's input and output paths. The
        // model assumes a task's Resources() and AnalysisName() do not read
        // those fields, so the abstract task is unchanged by it.
        var task := tasks[i];
        if task.resources.err.Some? {
          ValidateReportsFirstFailure(tasks, i);
          return Returned(Some(ResourcesFailed(task.analysisName)));
        }
        if task.resources.resources.container == "" {
          ValidateReportsFirstFailure(tasks, i);
          return Returned(Some(NoContainer(task.analysisName)));
        }
      }
      var graphErr := newGraph(tasks);
      if graphErr.Some? {
        return Returned(Some(GraphFailed(graphErr.value)));
      }
      var processErr := process(tasks);
      if processErr.Some? {
        return Exited(processErr.value);
      }
      return Returned(None);
    }
  }
}
