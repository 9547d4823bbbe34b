/**
 * Background_panel: a running flag beside a thread pool. The pool is
 * abstracted to what the panel can observe of it: whether it has been shut
 * down, whether shutdownNow was used, and the tasks submitted to it, in
 * order. The tasks themselves never run in the model.
 */
module BackgroundPanel {

  /** A submitted Runnable, known only by its identity. */
  datatype Task = Task(id: nat)

  /** How awaitTermination(5, SECONDS) ends: the pool drained, the time ran out, or the waiting thread was interrupted. */
  datatype AwaitResult = Terminated | TimedOut | Interrupted

  /** What the panel and its current pool hold. */
  datatype State = State(running: bool, executorShutdown: bool, forced: bool, tasks: seq<Task>)

  /** isRunning(): the flag is set and the pool is not shut down. */
  predicate Active(s: State)
  {
    s.running && !s.executorShutdown
  }

  /** The two flags agree; every operation keeps them so. */
  predicate Consistent(s: State)
  {
    s.running == !s.executorShutdown
  }

  /** A freshly built panel: running, with a new pool and no tasks. */
  function Initial(): (s: State)
    ensures Active(s) && Consistent(s) && s.tasks == []
  {
    State(true, false, false, [])
  }

  /** executeTask: the task is submitted only while running; otherwise it is dropped. */
  function AfterExecute(s: State, t: Task): (r: State)
  {
    if Active(s) then s.(tasks := s.tasks + [t]) else s
  }

  /**
   * shutdown(): a running panel clears its flag and shuts the pool down;
   * if the wait does not end with the pool drained, the pool is also shut
   * down at once. A stopped panel is left as it is.
   */
  function AfterShutdown(s: State, a: AwaitResult): (r: State)
  {
    if Active(s) then s.(running := false, executorShutdown := true, forced := s.forced || a != Terminated)
    else s
  }

  /** shutdown() re-raises the interrupt on the calling thread exactly when it waited and was interrupted. */
  predicate Reinterrupts(s: State, a: AwaitResult)
  {
    Active(s) && a == Interrupted
  }

  /** restart(): a stopped panel gets a new, empty pool and runs again; a running one is left as it is. */
  function AfterRestart(s: State): (r: State)
  {
    if Active(s) then s else Initial()
  }

  /** Every operation keeps the two flags in agreement. */
  lemma OperationsKeepConsistent(s: State, t: Task, a: AwaitResult)
    requires Consistent(s)
    ensures Consistent(AfterExecute(s, t))
    ensures Consistent(AfterShutdown(s, a))
    ensures Consistent(AfterRestart(s))
  {
  }

  /** Under the invariant, isRunning() is the flag alone. */
  lemma ActiveIsFlag(s: State)
    requires Consistent(s)
    ensures Active(s) <==> s.running
  {
  }

  /** A task is submitted exactly when the panel is running, and nothing else changes. */
  lemma ExecuteSubmitsIffRunning(s: State, t: Task)
    ensures Active(s) <==> AfterExecute(s, t).tasks == s.tasks + [t]
    ensures AfterExecute(s, t).tasks[..|s.tasks|] == s.tasks
    ensures Active(AfterExecute(s, t)) == Active(s)
  {
    var r := AfterExecute(s, t);
    if !Active(s) {
      assert |r.tasks| != |s.tasks + [t]|;
    }
  }

  /** After shutdown(), isRunning() is false, whichever way the wait ended; the submitted tasks are kept. */
  lemma ShutdownStops(s: State, a: AwaitResult)
    ensures !Active(AfterShutdown(s, a))
    ensures AfterShutdown(s, a).tasks == s.tasks
    ensures Active(s) ==> (AfterShutdown(s, a).forced <==> s.forced || a != Terminated)
  {
  }

  /** A second shutdown() changes nothing and does not re-interrupt. */
  lemma ShutdownIdempotent(s: State, a: AwaitResult, b: AwaitResult)
    ensures AfterShutdown(AfterShutdown(s, a), b) == AfterShutdown(s, a)
    ensures !Reinterrupts(AfterShutdown(s, a), b)
  {
  }

  /** Once shut down, the panel drops every task it is given. */
  lemma ExecuteAfterShutdownDrops(s: State, a: AwaitResult, t: Task)
    ensures AfterExecute(AfterShutdown(s, a), t) == AfterShutdown(s, a)
  {
  }

  /** restart() makes isRunning() true; from a stopped panel it starts over with no tasks. */
  lemma RestartRuns(s: State)
    ensures Active(AfterRestart(s))
    ensures !Active(s) ==> AfterRestart(s) == Initial()
    ensures Active(s) ==> AfterRestart(s) == s
    ensures AfterRestart(AfterRestart(s)) == AfterRestart(s)
  {
  }

  /** Shutting down and restarting gives a panel that accepts tasks again, into an empty pool. */
  lemma ShutdownThenRestart(s: State, a: AwaitResult, t: Task)
    ensures AfterExecute(AfterRestart(AfterShutdown(s, a)), t).tasks == [t]
  {
  }

  /** The pool the panel submits to; only the calls Background_panel makes. */
  class Executor {
    var isShutdown: bool
    var forced: bool
    var tasks: seq<Task>

    /** Executors.newCachedThreadPool(). */
    constructor ()
      ensures !isShutdown && !forced && tasks == []
    {
      isShutdown := false;
      forced := false;
      tasks := [];
    }

    /** submit(task): a pool that is not shut down accepts it. */
    method Submit(t: Task)
      requires !isShutdown
      modifies this
      ensures tasks == old(tasks) + [t]
      ensures isShutdown == old(isShutdown) && forced == old(forced)
    {
      tasks := tasks + [t];
    }

    /** shutdown(): no new tasks; the submitted ones are kept. */
    method Shutdown()
      modifies this
      ensures isShutdown && forced == old(forced) && tasks == old(tasks)
    {
      isShutdown := true;
    }

    /** shutdownNow(): shut down and interrupt whatever still runs. */
    method ShutdownNow()
      modifies this
      ensures isShutdown && forced && tasks == old(tasks)
    {
      isShutdown := true;
      forced := true;
    }
  }

  class BackgroundPanel {
    var executor: Executor
    var running: bool

    /** The panel and its current pool as a value. */
    function Abs(): State
      reads this, executor
    {
      State(running, executor.isShutdown, executor.forced, executor.tasks)
    }

    /** Background_panel(): a new pool, and running. */
    constructor ()
      ensures Abs() == Initial()
      ensures fresh(executor)
    {
      executor := new Executor();
      running := true;
    }

    /** isRunning(). */
    predicate IsRunning()
      reads this, executor
      ensures IsRunning() <==> Active(Abs())
    {
      running && !executor.isShutdown
    }

    /** executeTask(task). */
    method ExecuteTask(t: Task)
      modifies executor
      ensures Abs() == AfterExecute(old(Abs()), t)
    {
      if running && !executor.isShutdown {
        executor.Submit(t);
      }
    }

    /**
     * shutdown(), with the way awaitTermination ends as a parameter;
     * reinterrupted says whether the calling thread's interrupt was raised
     * again.
     */
    method Shutdown(a: AwaitResult) returns (reinterrupted: bool)
      modifies this, executor
      ensures executor == old(executor)
      ensures Abs() == AfterShutdown(old(Abs()), a)
      ensures reinterrupted == Reinterrupts(old(Abs()), a)
    {
      reinterrupted := false;
      if running && !executor.isShutdown {
        running := false;
        executor.Shutdown();
        match a {
          case Terminated =>
          case TimedOut =>
            executor.ShutdownNow();
          case Interrupted =>
            reinterrupted := true;
            executor.ShutdownNow();
        }
      }
    }

    /** restart(): a stopped panel gets a new pool; a running one keeps its own. */
    method Restart()
      modifies this
      ensures Abs() == AfterRestart(old(Abs()))
      ensures old(Active(Abs())) ==> executor == old(executor)
      ensures !old(Active(Abs())) ==> fresh(executor)
    {
      if !running || executor.isShutdown {
        executor := new Executor();
        running := true;
      }
    }
  }
}
