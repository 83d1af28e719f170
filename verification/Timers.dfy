/** The timer threads of BatchScheduler. */
module Timers {
  /*
    For one period: tasks are registered and cancelled while threads wake up, flush, and give up when no
    task is left. Every access to the table is a step by itself.
   */

  import opened Streams

  type Task = nat

  /** Where a thread is: asleep, it has seen no task left, it has tried to remove the entry, or it has left its loop. */
  datatype Thread = Sleeping | SawNone | Removed | Gone

  datatype System = System(
    tasks: Option<seq<Task>>,     // the entry of the period
    cancelled: set<Task>,
    threads: seq<Thread>,
    pending: nat,                 // calls of register that have made the entry and not yet the thread
    registered: set<Task>,        // history: every task that was ever registered
    flushed: seq<Task>)           // history: the flushes of the last thread that woke up

  predicate Init(s: System) { s == System(None, {}, [], 0, {}, []) }

  datatype Step =
    | Register(task: Task)
    | Spawn
    | Cancel(task: Task)
    | Wake(thread: nat)
    | Remove(thread: nat)
    | Check(thread: nat)

  function Retained(tasks: seq<Task>, cancelled: set<Task>): (r: seq<Task>)
    ensures forall t :: t in r <==> t in tasks && t !in cancelled
  {
    if tasks == [] then []
    else
      var before, t := Retained(tasks[..|tasks| - 1], cancelled), tasks[|tasks| - 1];
      assert tasks == tasks[..|tasks| - 1] + [t];
      if t in cancelled then before else before + [t]
  }

  predicate IsAt(s: System, i: nat, t: Thread) { i < |s.threads| && s.threads[i] == t }

  predicate Enabled(s: System, a: Step) {
    match a
    case Register(t) => t !in s.registered
    case Spawn => s.pending > 0
    case Cancel(_) => true
    case Wake(i) => IsAt(s, i, Sleeping)
    case Remove(i) => IsAt(s, i, SawNone)
    case Check(i) => IsAt(s, i, Removed)
  }

  function Goes(s: System, i: nat, t: Thread): System
    requires i < |s.threads|
  {
    s.(threads := s.threads[i := t])
  }

  function Apply(s: System, a: Step): System
    requires Enabled(s, a)
  {
    match a
    case Register(t) =>
      var s' := s.(registered := s.registered + {t});
      if s.tasks.Some? then s'.(tasks := Some(s.tasks.value + [t]))
        else s'.(tasks := Some([t]), pending := s.pending + 1)
    case Spawn => s.(pending := s.pending - 1, threads := s.threads + [Sleeping])
    case Cancel(t) => s.(cancelled := s.cancelled + {t})
    case Wake(i) =>
      if s.tasks.None? then s.(flushed := [])
      else
        var left := Retained(s.tasks.value, s.cancelled);
        Goes(s.(tasks := Some(left), flushed := left), i, if left == [] then SawNone else Sleeping)
    case Remove(i) => Goes(if s.tasks == Some([]) then s.(tasks := None) else s, i, Removed)
    case Check(i) => Goes(s, i, if s.tasks.Some? then Sleeping else Gone)
  }

  ghost predicate IsRun(run: seq<System>) {
    && run != [] && Init(run[0])
    && forall i :: 0 <= i < |run| - 1 ==> IsStep(run[i], run[i + 1])
  }

  ghost predicate IsStep(s: System, s': System) { exists a :: Enabled(s, a) && s' == Apply(s, a) }

  /** Some thread still looks after every live task, or one is about to. */
  ghost predicate IsServed(s: System) { s.pending > 0 || exists i :: Lives(s, i) }

  predicate Lives(s: System, i: int) { 0 <= i < |s.threads| && s.threads[i] != Gone }

  ghost predicate Inv(s: System) {
    && (s.tasks.Some? ==> IsServed(s))
    && (forall t :: t in s.registered && t !in s.cancelled ==> s.tasks.Some? && t in s.tasks.value)
    && (s.tasks.Some? ==> forall t :: t in s.tasks.value ==> t in s.registered)
  }

  lemma StepInv(s: System, a: Step)
    requires Inv(s) && Enabled(s, a)
    ensures Inv(Apply(s, a))
  {
    var s' := Apply(s, a);
    if s'.tasks.Some? {
      if i :| Lives(s, i) && !(a.Check? && a.thread == i) {
        assert Lives(s', i);
      } else if a.Spawn? {
        assert Lives(s', |s.threads|);
      } else if a.Check? {
        assert Lives(s', a.thread);
      }
    }
  }

  lemma {:induction false} RunInv(run: seq<System>, i: nat)
    requires IsRun(run) && i < |run|
    ensures Inv(run[i])
  {
    if i > 0 {
      RunInv(run, i - 1);
      assert IsStep(run[i - 1], run[i - 1 + 1]);
      var a :| Enabled(run[i - 1], a) && run[i] == Apply(run[i - 1], a);
      StepInv(run[i - 1], a);
    }
  }

  /**
    No task is orphaned: in every interleaving, a task that is registered and not cancelled is in the
    table, a thread that serves the table lives or is about to be made, and whichever thread wakes up
    flushes it.
   */
  lemma NoTaskIsOrphaned(run: seq<System>, i: nat, t: Task)
    requires IsRun(run) && i < |run| && t in run[i].registered && t !in run[i].cancelled
    ensures var s := run[i];
            && s.tasks.Some? && t in s.tasks.value && IsServed(s)
            && forall j :: IsAt(s, j, Sleeping) ==> t in Apply(s, Wake(j)).flushed
  {
    RunInv(run, i);
  }

  /** Every live thread gets back to waking up by its own steps, as long as there is such a task. */
  lemma LiveThreadsWake(run: seq<System>, i: nat, t: Task, j: nat)
    requires IsRun(run) && i < |run| && t in run[i].registered && t !in run[i].cancelled && Lives(run[i], j)
    ensures var s := run[i];
            || IsAt(s, j, Sleeping)
            || (IsAt(s, j, Removed) && IsAt(Apply(s, Check(j)), j, Sleeping))
            || (IsAt(s, j, SawNone) && IsAt(Apply(s, Remove(j)), j, Removed) &&
              IsAt(Apply(Apply(s, Remove(j)), Check(j)), j, Sleeping))
  {
    RunInv(run, i);
  }
}
