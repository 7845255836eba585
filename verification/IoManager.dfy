/** The I/O manager and the scheduler as objects: the same operations, updating their fields step by step. */
module IoManagers {
  import opened Bytes
  import opened EventTables
  import opened Scheduling

  class IoManager {
    /** `mEvents`; the entry of a descriptor is at its index. */
    var events: seq<Event>
    /** What `epoll_ctl` has been told. */
    var kernel: Kernel
    /** `mTasks`, and every task ever put there. */
    var queue: seq<Task>
    var accepted: multiset<Task>

    function Value(): Table
      reads this
    {
      Table(events, kernel, queue, accepted)
    }

    ghost predicate Valid()
      reads this
    {
      TableOk(Value())
    }

    constructor ()
      ensures Valid() && queue == [] && |events| == 128
    {
      events, kernel, queue, accepted := [], map[], [], multiset{};
      new;
      CtxResize(128);
    }

    /** `ctxResize` */
    method CtxResize(size: nat)
      modifies this`events
      ensures events == Resize(old(events), size)
    {
      if size <= |events| {
        events := events[..size];
      } else {
        ghost var was := events;
        while |events| < size
          invariant |was| <= |events| <= size && events == was + Fresh(|was|, |events|)
        {
          var i := |events|;
          assert Fresh(|was|, i + 1) == Fresh(|was|, i) + [Event(i, NONE, EMPTY, EMPTY)];
          events := events + [Event(i, NONE, EMPTY, EMPTY)];
        }
      }
    }

    /** `epoll_ctl`, 0 for success. */
    method EpollCtl(op: Op, fd: nat, mask: Mask) returns (ok: bool)
      modifies this`kernel
      ensures ok == EventTables.EpollCtl(old(kernel), op, fd, mask).Some?
      ensures kernel == Applied(old(kernel), op, fd, mask)
    {
      ok := if op.Add? then fd !in kernel else fd in kernel;
      if ok { kernel := if op.Del? then kernel - {fd} else kernel[fd := mask]; }
    }

    method AddTask(task: Task)
      modifies this`queue, this`accepted
      ensures Value() == AddTasks(old(Value()), [task])
    {
      queue, accepted := queue + [task], accepted + multiset{task};
    }

    /** `triggerEvent` */
    method TriggerEvent(fd: nat, dir: Dir)
      requires fd < |events|
      modifies this
      ensures Value() == Trigger(old(Value()), fd, dir) && |events| == |old(events)|
    {
      hide WithCtx, CtxOf;
      var e := events[fd];
      events := events[fd := e.(mask := e.mask.Minus(dir))];
      var ctx := CtxOf(e, dir);
      Schedule(ctx);
      ghost var done := WithCtx(e.(mask := e.mask.Minus(dir)), dir, EMPTY);
      events := events[fd := WithCtx(events[fd], dir, EMPTY)];
      assert events == old(events)[fd := done];
    }

    /** The fiber if there is one, otherwise the callback, otherwise nothing. */
    method Schedule(ctx: Ctx)
      modifies this`queue, this`accepted
      ensures Value() == AddTasks(old(Value()), Woken(ctx))
    {
      if ctx.fiber.Some? {
        AddTask(Task(OfFiber(ctx.fiber.value), None));
      } else if ctx.cb.Some? {
        AddTask(Task(OfJob(ctx.cb.value), None));
      } else {
        assert queue + [] == queue && accepted + multiset([]) == accepted;
      }
    }

    /** `addEvent`; without a callback the running fiber `current` waits. */
    method AddEvent(fd: nat, dir: Dir, cb: Option<Job>, current: nat)
      requires Valid()
      modifies this
      ensures fd < |Grown(old(events), fd)|
      ensures
        var ctx := if cb.Some? then Ctx(cb, None) else Ctx(None, Some(current));
        Value() == EventTables.AddEvent(old(Value()), fd, dir, ctx)
      ensures Valid()
    {
      hide TableOk, Resize;
      ghost var was := Value();
      ghost var ctx := if cb.Some? then Ctx(cb, None) else Ctx(None, Some(current));
      AddEventKeeps(was, fd, dir, ctx);
      if 5 * fd >= 4 * |events| { CtxResize(3 * fd / 2); }
      assert events == Grown(was.events, fd);
      var e := events[fd];
      if e.mask.Has(dir) { return; }
      var ok := EpollCtl(if e.mask == NONE then Add else Mod, fd, e.mask.Plus(dir));
      if !ok { return; }
      events := events[fd := e.(mask := e.mask.Plus(dir))];
      var slot := CtxOf(e, dir);
      if cb.Some? { slot := slot.(cb := cb); } else { slot := slot.(fiber := Some(current)); }
      events := events[fd := WithCtx(events[fd], dir, slot)];
    }

    /** `cancelEvent` */
    method CancelEvent(fd: nat, dir: Dir)
      requires Valid()
      modifies this
      ensures Value() == EventTables.CancelEvent(old(Value()), fd, dir) && Valid()
    {
      hide TableOk, Trigger;
      CancelEventKeeps(Value(), fd, dir);
      if fd >= |events| { return; }
      if events[fd].mask.Has(dir) {
        var ok := EpollCtl(if events[fd].mask.Minus(dir) == NONE then Del else Mod, fd, events[fd].mask);
        TriggerEvent(fd, dir);
      }
    }

    /** `delEvent` */
    method DelEvent(fd: nat)
      requires Valid()
      modifies this
      ensures Value() == EventTables.DelEvent(old(Value()), fd) && Valid()
    {
      hide TableOk;
      DelEventKeeps(Value(), fd);
      if fd >= |events| || events[fd].mask == NONE { return; }
      var ok := EpollCtl(Del, fd, NONE);
      events := events[fd := events[fd].(mask := NONE)];
      events := events[fd := WithCtx(events[fd], In, EMPTY)];
      events := events[fd := WithCtx(events[fd], Out, EMPTY)];
    }

    /** One reported event in `idle`: the ready waiters are scheduled, readers first, and no one else. */
    method HandleEvent(fd: nat, ready: Mask)
      requires Valid() && fd < |events|
      modifies this
      ensures Value() == EventTables.HandleEvent(old(Value()), fd, ready) && Valid()
      ensures events == old(events)[fd := Left(old(events)[fd], ready)]
        && queue == old(queue) + WokenBy(old(events)[fd], ready)
    {
      hide TableOk, Trigger, WokenBy, Left;
      HandleEventSays(Value(), fd, ready);
      var e := events[fd];
      if !e.mask.Meets(ready) { return; }
      var left := e.mask.Without(ready);
      var ok := EpollCtl(if left == NONE then Del else Mod, fd, left);
      if !ok { return; }
      if ready.input { TriggerEvent(fd, In); }
      if ready.output { TriggerEvent(fd, Out); }
    }
  }

  /** The task list of the scheduler and the count of busy workers. */
  class Scheduler {
    var queue: seq<Task>
    var active: int

    constructor ()
      ensures queue == [] && active == 0
    {
      queue, active := [], 0;
    }

    /** The locked search of `threadFunc` by worker `t`; `trickle` tells whether others are woken up. */
    method PickTask(t: nat, fibers: seq<Fiber>) returns (picked: Option<Task>, trickle: bool)
      modifies this
      ensures
        match FirstEligible(fibers, old(queue), t, 0)
        case None => picked == None && queue == old(queue) && active == old(active)
        case Some(i) => picked == Some(old(queue)[i]) && queue == Remove(old(queue), i) && active == old(active) + 1
      ensures trickle <==> queue != []
    {
      picked, trickle := None, false;
      var i := 0;
      while i < |queue|
        invariant i <= |queue| && queue == old(queue) && active == old(active) && picked == None
        invariant FirstEligible(fibers, queue, t, 0) == FirstEligible(fibers, queue, t, i)
        invariant trickle ==> exists j :: 0 <= j < i && queue[j].thread.Some?
      {
        var task := queue[i];
        if task.thread.Some? && task.thread != Some(t) {
          trickle := true;
        } else if task.body.OfFiber? && task.body.fiber < |fibers| && fibers[task.body.fiber].state.Exec? {
        } else {
          picked, active := Some(task), active + 1;
          queue := queue[..i] + queue[i + 1..];
          break;
        }
        i := i + 1;
      }
      if queue != [] { trickle := true; }
    }
  }
}
