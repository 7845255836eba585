/** The scheduler, its fibers and the I/O manager as one step system: every step is one locked operation of the
    source, taken by any worker thread in any order. */
module Scheduling {
  import opened Bytes
  import opened EventTables

  /** `Fiber::State` */
  datatype FiberState = Hold | Exec | Term

  /** `todo` is the callback that the fiber has yet to run; `parking` is set between the registration of a wake-up
      and the yield that follows it in `io_func` and `sleep`. */
  datatype Fiber = Fiber(state: FiberState, todo: Option<Job>, parking: bool)

  /** Where a worker is in `threadFunc`. */
  datatype Worker =
    | Looping                            // about to look for a task
    | Holding(task: Task)                // picked, not yet resumed
    | Running(fiber: nat, task: Task)    // inside a fiber
    | Settling(task: Task)               // back from the fiber, `mActiveCnt` not yet lowered
    | Idling                             // inside the idle fiber

  /** A timer of the I/O manager. */
  datatype Alarm = Alarm(job: Job, recurring: bool)

  datatype World = World(
    table: Table, fibers: seq<Fiber>, workers: seq<Worker>, alarms: seq<Alarm>, active: int, finished: multiset<Task>)

  datatype Step =
    | Submit(job: Job, thread: Option<nat>)     // `addTask` of a function
    | Spawn(job: Job, thread: Option<nat>)      // a new fiber and `addTask` of it
    | Pick(t: nat)                              // the locked search of `threadFunc`
    | Resume(t: nat)                            // `resume` of what was picked
    | RunJob(t: nat)                            // the callback of the running fiber
    | Register(t: nat, fd: nat, dir: Dir)       // `io_func`: `addEvent` for the running fiber
    | Sleep(t: nat)                             // `sleep`: a timer that schedules the running fiber
    | Park(t: nat)                              // `yield`
    | Finish(t: nat)                            // the end of `MainFunc`
    | Settle(t: nat)                            // `--mActiveCnt`
    | Watch(fd: nat, dir: Dir, job: Job)        // `addEvent` with a callback
    | Cancel(fd: nat, dir: Dir)                 // `cancelEvent`
    | Close(fd: nat)                            // `delEvent`
    | SetAlarm(job: Job, recurring: bool)       // `addTimer`
    | DropAlarm(i: nat)                         // `delTimer`
    | Report(t: nat, fd: nat, ready: Mask)      // one event in `idle`
    | Expire(t: nat, i: nat)                    // one timer in `idle`
    | LeaveIdle(t: nat)                         // the yield of `idle`

  /** `addTaskNoLock`: a worker number past the pool means any worker. */
  function Pinned(w: World, body: Body, thread: Option<nat>): Task {
    Task(body, if thread.Some? && thread.value > |w.workers| then None else thread)
  }

  /** The two tests of the search: the worker matches, and the fiber is not still executing. */
  predicate Eligible(fibers: seq<Fiber>, t: nat, task: Task) {
    && (task.thread.None? || task.thread == Some(t))
    && (task.body.OfFiber? && task.body.fiber < |fibers| ==> !fibers[task.body.fiber].state.Exec?)
  }

  function FirstEligible(fibers: seq<Fiber>, queue: seq<Task>, t: nat, i: nat): (r: Option<nat>)
    requires i <= |queue|
    ensures r.Some? ==> i <= r.value < |queue|
    decreases |queue| - i
  {
    if i == |queue| then None
    else if Eligible(fibers, t, queue[i]) then Some(i)
    else FirstEligible(fibers, queue, t, i + 1)
  }

  function Remove<T>(s: seq<T>, i: nat): seq<T>
    requires i < |s|
  {
    s[..i] + s[i + 1..]
  }

  predicate RunsFiber(w: World, t: nat) {
    t < |w.workers| && w.workers[t].Running? && w.workers[t].fiber < |w.fibers|
  }

  function FiberOn(w: World, t: nat): Fiber
    requires RunsFiber(w, t)
  {
    w.fibers[w.workers[t].fiber]
  }

  predicate Free(w: World, t: nat) { RunsFiber(w, t) && FiberOn(w, t).todo.None? && !FiberOn(w, t).parking }

  /** What the step system assumes of the callers: one waiter per descriptor and direction, no descriptor closed
      under a waiting fiber, and nobody but `sleep` schedules a parked fiber or drops its timer. That a grown table
      has an entry for the descriptor is no assumption for a table of 128 entries or more. */
  predicate Enabled(w: World, s: Step) {
    match s
    case Submit(job, thread) => !job.Wake? && thread != Some(|w.workers|)
    case Spawn(job, thread) => !job.Wake? && thread != Some(|w.workers|)
    case Pick(t) => t < |w.workers| && w.workers[t].Looping?
    case Resume(t) =>
      t < |w.workers| && w.workers[t].Holding?
      && (w.workers[t].task.body.OfFiber? ==> w.workers[t].task.body.fiber < |w.fibers|)
    case RunJob(t) => RunsFiber(w, t) && FiberOn(w, t).todo.Some?
    case Register(t, fd, dir) =>
      Free(w, t) && fd < |Grown(w.table.events, fd)| && (fd < |w.table.events| ==> !w.table.events[fd].mask.Has(dir))
    case Sleep(t) => Free(w, t)
    case Park(t) => RunsFiber(w, t) && FiberOn(w, t).parking
    case Finish(t) => Free(w, t)
    case Settle(t) => t < |w.workers| && w.workers[t].Settling?
    case Watch(fd, _, job) => fd < |Grown(w.table.events, fd)| && !job.Wake?
    case Cancel(_, _) => true
    case Close(fd) =>
      fd < |w.table.events| ==> w.table.events[fd].read.fiber.None? && w.table.events[fd].write.fiber.None?
    case SetAlarm(job, _) => !job.Wake?
    case DropAlarm(i) => i < |w.alarms| && !w.alarms[i].job.Wake?
    case Report(t, fd, _) => t < |w.workers| && w.workers[t].Idling? && fd < |w.table.events|
    case Expire(t, i) => t < |w.workers| && w.workers[t].Idling? && i < |w.alarms|
    case LeaveIdle(t) => t < |w.workers| && w.workers[t].Idling?
  }

  function SetWorker(w: World, t: nat, k: Worker): World
    requires t < |w.workers|
  {
    w.(workers := w.workers[t := k])
  }

  function SetFiber(w: World, f: nat, b: Fiber): World
    requires f < |w.fibers|
  {
    w.(fibers := w.fibers[f := b])
  }

  function Spawned(w: World, job: Job, thread: Option<nat>): World {
    w.(table := AddTasks(w.table, [Pinned(w, OfFiber(|w.fibers|), thread)]),
       fibers := w.fibers + [Fiber(Hold, Some(job), false)])
  }

  /** The first eligible task leaves the queue; without one the worker goes idle. */
  function Picked(w: World, t: nat): World
    requires t < |w.workers|
  {
    match FirstEligible(w.fibers, w.table.queue, t, 0)
    case None => SetWorker(w, t, Idling)
    case Some(i) =>
      SetWorker(w, t, Holding(w.table.queue[i])).(
        table := w.table.(queue := Remove(w.table.queue, i)), active := w.active + 1)
  }

  /** A picked fiber continues; a picked function gets a fiber of its own. */
  function Resumed(w: World, t: nat): World
    requires Enabled(w, Resume(t))
  {
    var task := w.workers[t].task;
    match task.body
    case OfFiber(f) => SetWorker(SetFiber(w, f, w.fibers[f].(state := Exec)), t, Running(f, task))
    case OfJob(j) => SetWorker(w.(fibers := w.fibers + [Fiber(Exec, Some(j), false)]), t, Running(|w.fibers|, task))
  }

  /** A user's function has no effect of its own here: what it calls are further steps. */
  function Effect(tb: Table, job: Job): Table {
    match job
    case User(_) => tb
    case Wake(f) => AddTasks(tb, [Task(OfFiber(f), None)])
    case CancelIo(fd, dir) => CancelEvent(tb, fd, dir)
  }

  function Ran(w: World, t: nat): World
    requires RunsFiber(w, t) && FiberOn(w, t).todo.Some?
  {
    SetFiber(w, w.workers[t].fiber, FiberOn(w, t).(todo := None)).(table := Effect(w.table, FiberOn(w, t).todo.value))
  }

  function Registered(w: World, t: nat, fd: nat, dir: Dir): World
    requires RunsFiber(w, t) && fd < |Grown(w.table.events, fd)|
  {
    SetFiber(w, w.workers[t].fiber, FiberOn(w, t).(parking := true)).(
      table := AddEvent(w.table, fd, dir, Ctx(None, Some(w.workers[t].fiber))))
  }

  function Slept(w: World, t: nat): World
    requires RunsFiber(w, t)
  {
    SetFiber(w, w.workers[t].fiber, FiberOn(w, t).(parking := true)).(
      alarms := w.alarms + [Alarm(Wake(w.workers[t].fiber), false)])
  }

  /** Leaving the fiber, in the state given. */
  function Quit(w: World, t: nat, state: FiberState): World
    requires RunsFiber(w, t)
  {
    SetWorker(SetFiber(w, w.workers[t].fiber, FiberOn(w, t).(state := state, parking := false)), t,
              Settling(w.workers[t].task))
  }

  function Settled(w: World, t: nat): World
    requires t < |w.workers| && w.workers[t].Settling?
  {
    SetWorker(w, t, Looping).(active := w.active - 1, finished := w.finished + multiset{w.workers[t].task})
  }

  function Expired(w: World, i: nat): World
    requires i < |w.alarms|
  {
    w.(table := AddTasks(w.table, [Task(OfJob(w.alarms[i].job), None)]),
       alarms := if w.alarms[i].recurring then w.alarms else Remove(w.alarms, i))
  }

  function Next(w: World, s: Step): World
    requires Enabled(w, s)
  {
    match s
    case Submit(job, thread) => w.(table := AddTasks(w.table, [Pinned(w, OfJob(job), thread)]))
    case Spawn(job, thread) => Spawned(w, job, thread)
    case Pick(t) => Picked(w, t)
    case Resume(t) => Resumed(w, t)
    case RunJob(t) => Ran(w, t)
    case Register(t, fd, dir) => Registered(w, t, fd, dir)
    case Sleep(t) => Slept(w, t)
    case Park(t) => Quit(w, t, Hold)
    case Finish(t) => Quit(w, t, Term)
    case Settle(t) => Settled(w, t)
    case Watch(fd, dir, job) => w.(table := AddEvent(w.table, fd, dir, Ctx(Some(job), None)))
    case Cancel(fd, dir) => w.(table := CancelEvent(w.table, fd, dir))
    case Close(fd) => w.(table := DelEvent(w.table, fd))
    case SetAlarm(job, recurring) => w.(alarms := w.alarms + [Alarm(job, recurring)])
    case DropAlarm(i) => w.(alarms := Remove(w.alarms, i))
    case Report(_, fd, ready) => w.(table := HandleEvent(w.table, fd, ready))
    case Expire(_, i) => Expired(w, i)
    case LeaveIdle(t) => SetWorker(w, t, Looping)
  }

  /** The start: an empty table of 128 entries, `n` workers in their loop, nothing scheduled. */
  function Boot(n: nat): World {
    World(Table(Fresh(0, 128), map[], [], multiset{}), [], seq(n, i requires 0 <= i < n => Looping), [], 0, multiset{})
  }

  predicate Runs(w: World, steps: seq<Step>)
    decreases |steps|
  {
    steps == [] || (Enabled(w, steps[0]) && Runs(Next(w, steps[0]), steps[1..]))
  }

  /** The world after a run. */
  function After(w: World, steps: seq<Step>): World
    requires Runs(w, steps)
    decreases |steps|
  {
    if steps == [] then w else After(Next(w, steps[0]), steps[1..])
  }
}
