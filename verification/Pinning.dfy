/** Tasks for one worker: they can always be picked by a worker that exists, and run nowhere else. */
module Pinning {
  import opened Bytes
  import opened EventTables
  import opened Scheduling

  /** Any worker, or one of the pool. */
  predicate Assignable(task: Task, n: nat) { task.thread.None? || task.thread.value < n }

  predicate Busy(k: Worker) { k.Holding? || k.Running? || k.Settling? }

  predicate AtHome(k: Worker, t: nat) { Busy(k) ==> k.task.thread.None? || k.task.thread == Some(t) }

  predicate PinsOk(w: World) {
    && AllAssignable(w.table.queue, |w.workers|)
    && (forall t :: 0 <= t < |w.workers| ==> AtHome(w.workers[t], t))
  }

  predicate AllAssignable(queue: seq<Task>, n: nat) { forall i :: 0 <= i < |queue| ==> Assignable(queue[i], n) }

  /** A trigger appends a task for any worker. */
  lemma TriggerAnywhere(tb: Table, fd: nat, dir: Dir, n: nat)
    requires AllAssignable(tb.queue, n) && fd < |tb.events|
    ensures AllAssignable(Trigger(tb, fd, dir).queue, n) && |Trigger(tb, fd, dir).events| == |tb.events|
  {
    hide WithCtx;
  }

  /** Events and cancellations append tasks for any worker. */
  lemma WokenAnywhere(tb: Table, fd: nat, dir: Dir, ready: Mask, n: nat)
    requires AllAssignable(tb.queue, n)
    ensures AllAssignable(CancelEvent(tb, fd, dir).queue, n)
    ensures fd < |tb.events| ==> AllAssignable(HandleEvent(tb, fd, ready).queue, n)
  {
    hide Trigger, AllAssignable;
    if fd < |tb.events| {
      var e := tb.events[fd];
      TriggerAnywhere(tb.(kernel := Applied(tb.kernel, if e.mask.Minus(dir) == NONE then Del else Mod, fd, e.mask)),
                      fd, dir, n);
      var left := e.mask.Without(ready);
      var a := tb.(kernel := Applied(tb.kernel, if left == NONE then Del else Mod, fd, left));
      TriggerAnywhere(a, fd, In, n);
      TriggerAnywhere(TriggerIf(a, fd, In, ready), fd, Out, n);
    }
  }

  lemma QuietQueue(tb: Table, fd: nat, dir: Dir, ctx: Ctx)
    ensures fd < |Grown(tb.events, fd)| ==> AddEvent(tb, fd, dir, ctx).queue == tb.queue
    ensures DelEvent(tb, fd).queue == tb.queue
  {
    hide Grown;
  }

  lemma EligibleAtHome(w: World, t: nat)
    requires PinsOk(w) && t < |w.workers|
    ensures PinsOk(Picked(w, t)) && |Picked(w, t).workers| == |w.workers|
  {
    match FirstEligible(w.fibers, w.table.queue, t, 0)
    case None =>
    case Some(i) => FirstFits(w.fibers, w.table.queue, t, 0);
  }

  lemma {:induction false} FirstFits(fibers: seq<Fiber>, queue: seq<Task>, t: nat, i: nat)
    requires i <= |queue|
    ensures
      var r := FirstEligible(fibers, queue, t, i);
      r.Some? ==> queue[r.value].thread.None? || queue[r.value].thread == Some(t)
    decreases |queue| - i
  {
    if i < |queue| && !Eligible(fibers, t, queue[i]) { FirstFits(fibers, queue, t, i + 1); }
  }

  lemma TaskStays(w: World, t: nat, k: Worker)
    requires PinsOk(w) && t < |w.workers| && (Busy(k) ==> Busy(w.workers[t]) && k.task == w.workers[t].task)
    ensures PinsOk(SetWorker(w, t, k))
  {
  }

  lemma EffectPins(w: World, job: Job)
    requires PinsOk(w)
    ensures AllAssignable(Effect(w.table, job).queue, |w.workers|)
  {
    hide CancelEvent;
    if job.CancelIo? { WokenAnywhere(w.table, job.fd, job.dir, NONE, |w.workers|); }
  }

  /** Every step keeps the pins, and the pool. */
  lemma StepPins(w: World, s: Step)
    requires PinsOk(w) && Enabled(w, s)
    ensures PinsOk(Next(w, s)) && |Next(w, s).workers| == |w.workers|
  {
    hide AddEvent, CancelEvent, DelEvent, HandleEvent, Grown, Picked, Effect, AtHome;
    match s
    case Pick(t) => EligibleAtHome(w, t);
    case Resume(t) =>
      var task := w.workers[t].task;
      TaskStays(w, t, Running(if task.body.OfFiber? then task.body.fiber else |w.fibers|, task));
    case RunJob(t) => EffectPins(w, FiberOn(w, t).todo.value);
    case Park(t) => TaskStays(w, t, Settling(w.workers[t].task));
    case Finish(t) => TaskStays(w, t, Settling(w.workers[t].task));
    case Settle(t) => TaskStays(w, t, Looping);
    case LeaveIdle(t) => TaskStays(w, t, Looping);
    case Register(t, fd, dir) => QuietQueue(w.table, fd, dir, Ctx(None, Some(w.workers[t].fiber)));
    case Watch(fd, dir, job) => QuietQueue(w.table, fd, dir, Ctx(Some(job), None));
    case Close(fd) => QuietQueue(w.table, fd, In, EMPTY);
    case Cancel(fd, dir) => WokenAnywhere(w.table, fd, dir, NONE, |w.workers|);
    case Report(_, fd, ready) => WokenAnywhere(w.table, fd, In, ready, |w.workers|);
    case _ =>
  }

  lemma {:induction false} RunPins(w: World, steps: seq<Step>)
    requires PinsOk(w) && Runs(w, steps)
    ensures PinsOk(After(w, steps)) && |After(w, steps).workers| == |w.workers|
    decreases |steps|
  {
    hide PinsOk, Enabled, Next;
    if steps != [] {
      StepPins(w, steps[0]);
      RunPins(Next(w, steps[0]), steps[1..]);
    }
  }

  /** In every run a task that is pinned to a worker is held and run by that worker only, and no queued task waits
      for a worker outside the pool. */
  lemma PinnedRunAtHome(n: nat, steps: seq<Step>)
    requires Runs(Boot(n), steps)
    ensures
      var w := After(Boot(n), steps);
      |w.workers| == n
      && (forall t :: 0 <= t < n && Busy(w.workers[t]) && w.workers[t].task.thread.Some? ==>
        w.workers[t].task.thread == Some(t))
      && forall i :: 0 <= i < |w.table.queue| && w.table.queue[i].thread.Some? ==> w.table.queue[i].thread.value < n
  {
    hide Runs, After;
    RunPins(Boot(n), steps);
    var w := After(Boot(n), steps);
    forall t | 0 <= t < n && Busy(w.workers[t]) && w.workers[t].task.thread.Some?
      ensures w.workers[t].task.thread == Some(t)
    {
      assert AtHome(w.workers[t], t);
    }
    forall i | 0 <= i < |w.table.queue| && w.table.queue[i].thread.Some? ensures w.table.queue[i].thread.value < n {
      assert Assignable(w.table.queue[i], n);
    }
  }
}
