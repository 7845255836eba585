/** Every run of the step system: each parked fiber has exactly one pending wake-up, no fiber executes on two
    workers, tasks are neither lost nor doubled, and the epoll set matches the event table. */
module WakeTokens {
  import opened Bytes
  import opened EventTables
  import opened Scheduling

  // ----- Collecting over a sequence -----

  ghost function Gather<T, X>(s: seq<T>, f: T -> multiset<X>): multiset<X> {
    if s == [] then multiset{} else f(s[0]) + Gather(s[1..], f)
  }

  lemma {:induction false} GatherConcat<T, X>(a: seq<T>, b: seq<T>, f: T -> multiset<X>)
    ensures Gather(a + b, f) == Gather(a, f) + Gather(b, f)
    decreases |a|
  {
    if a == [] {
      assert a + b == b;
    } else {
      assert (a + b)[1..] == a[1..] + b;
      GatherConcat(a[1..], b, f);
    }
  }

  lemma GatherOne<T, X>(x: T, f: T -> multiset<X>)
    ensures Gather([x], f) == f(x)
  {
    assert [x][1..] == [];
  }

  lemma GatherSnoc<T, X>(s: seq<T>, x: T, f: T -> multiset<X>)
    ensures Gather(s + [x], f) == Gather(s, f) + f(x)
  {
    GatherConcat(s, [x], f);
    GatherOne(x, f);
  }

  lemma GatherSplit<T, X>(s: seq<T>, i: nat, f: T -> multiset<X>)
    requires i < |s|
    ensures Gather(s, f) == Gather(s[..i], f) + f(s[i]) + Gather(s[i + 1..], f)
  {
    assert s == s[..i] + [s[i]] + s[i + 1..];
    GatherConcat(s[..i] + [s[i]], s[i + 1..], f);
    GatherSnoc(s[..i], s[i], f);
  }

  lemma GatherSet<T, X>(s: seq<T>, i: nat, x: T, f: T -> multiset<X>)
    requires i < |s|
    ensures f(s[i]) <= Gather(s, f) && Gather(s[i := x], f) == Gather(s, f) - f(s[i]) + f(x)
  {
    GatherSplit(s, i, f);
    GatherSplit(s[i := x], i, f);
    assert s[i := x][..i] == s[..i] && s[i := x][i + 1..] == s[i + 1..];
  }

  lemma GatherRemove<T, X>(s: seq<T>, i: nat, f: T -> multiset<X>)
    requires i < |s|
    ensures f(s[i]) <= Gather(s, f) && Gather(Remove(s, i), f) == Gather(s, f) - f(s[i])
  {
    GatherSplit(s, i, f);
    GatherConcat(s[..i], s[i + 1..], f);
  }

  /** What one element contributes is part of the whole. */
  lemma GatherHas<T, X>(s: seq<T>, i: nat, f: T -> multiset<X>)
    requires i < |s|
    ensures f(s[i]) <= Gather(s, f)
  {
    GatherSplit(s, i, f);
  }

  lemma GatherHasTwo<T, X>(s: seq<T>, i: nat, j: nat, f: T -> multiset<X>)
    requires i < j < |s|
    ensures f(s[i]) + f(s[j]) <= Gather(s, f)
  {
    GatherSplit(s, j, f);
    GatherHas(s[..j], i, f);
  }

  /** An element replaced by one that holds `more` in addition. */
  lemma Gained<X>(before: multiset<X>, after: multiset<X>, was: multiset<X>, now: multiset<X>, more: multiset<X>)
    requires was <= before && after == before - was + now && now == was + more
    ensures after == before + more
  {
    forall x: X ensures after[x] == (before + more)[x] { assert was[x] <= before[x]; }
  }

  /** An element replaced by one that holds `less` fewer. */
  lemma Lost<X>(before: multiset<X>, after: multiset<X>, was: multiset<X>, now: multiset<X>, less: multiset<X>)
    requires was <= before && after == before - was + now && was == now + less
    ensures after + less == before
  {
    forall x: X ensures (after + less)[x] == before[x] { assert was[x] <= before[x]; }
  }

  // ----- Where a wake-up of a fiber may be -----

  function JobTok(j: Job): multiset<nat> { if j.Wake? then multiset{j.fiber} else multiset{} }

  function TaskTok(task: Task): multiset<nat> {
    match task.body
    case OfFiber(f) => multiset{f}
    case OfJob(j) => JobTok(j)
  }

  function CtxTok(c: Ctx): multiset<nat> {
    (if c.fiber.Some? then multiset{c.fiber.value} else multiset{})
      + (if c.cb.Some? then JobTok(c.cb.value) else multiset{})
  }

  function EventTok(e: Event): multiset<nat> { CtxTok(e.read) + CtxTok(e.write) }

  function WorkerTok(k: Worker): multiset<nat> { if k.Holding? then TaskTok(k.task) else multiset{} }

  function AlarmTok(a: Alarm): multiset<nat> { JobTok(a.job) }

  function FiberTok(b: Fiber): multiset<nat> { if b.todo.Some? then JobTok(b.todo.value) else multiset{} }

  /** All pending wake-ups: event slots, queue entries, picked tasks, timers, and callbacks about to run. */
  ghost function Tokens(w: World): multiset<nat> {
    Gather(w.table.queue, TaskTok) + Gather(w.table.events, EventTok)
    + Gather(w.workers, WorkerTok) + Gather(w.alarms, AlarmTok) + Gather(w.fibers, FiberTok)
  }

  function RunTok(k: Worker): multiset<nat> { if k.Running? then multiset{k.fiber} else multiset{} }

  function InFlight(k: Worker): multiset<Task> {
    if k.Holding? || k.Running? || k.Settling? then multiset{k.task} else multiset{}
  }

  // ----- The invariant -----

  /** How many pending wake-ups a fiber is owed. */
  function Owed(b: Fiber): nat {
    match b.state
    case Hold => 1
    case Exec => if b.parking then 1 else 0
    case Term => 0
  }

  ghost predicate TokensOk(tokens: multiset<nat>, fibers: seq<Fiber>) {
    forall f: nat :: tokens[f] == if f < |fibers| then Owed(fibers[f]) else 0
  }

  ghost predicate RunnersOk(runs: multiset<nat>, fibers: seq<Fiber>) {
    forall f: nat :: runs[f] == if f < |fibers| && fibers[f].state.Exec? then 1 else 0
  }

  /** A picked fiber is not executing: the search has skipped it as long as it was. */
  ghost predicate HoldersOk(workers: seq<Worker>, fibers: seq<Fiber>) {
    forall t :: 0 <= t < |workers| && workers[t].Holding? && workers[t].task.body.OfFiber? ==>
      workers[t].task.body.fiber < |fibers| && fibers[workers[t].task.body.fiber].state.Hold?
  }

  /** Accepted tasks are queued, in flight or finished, and `mActiveCnt` counts those in flight. */
  ghost predicate TasksOk(tb: Table, flying: multiset<Task>, active: int, finished: multiset<Task>) {
    tb.accepted == multiset(tb.queue) + flying + finished && active == |flying|
  }

  ghost predicate AlarmsOk(alarms: seq<Alarm>) {
    forall i :: 0 <= i < |alarms| && alarms[i].recurring ==> !alarms[i].job.Wake?
  }

  ghost predicate FibersOk(fibers: seq<Fiber>) {
    forall f :: 0 <= f < |fibers| ==> fibers[f].parking ==> fibers[f].state.Exec? && fibers[f].todo.None?
  }

  predicate NoWake(c: Ctx) { c.cb.Some? ==> !c.cb.value.Wake? }

  /** Callbacks in the table are users' functions or timeouts: `sleep` does not use the table. */
  ghost predicate SlotsOk(events: seq<Event>) {
    forall i :: 0 <= i < |events| ==> NoWake(events[i].read) && NoWake(events[i].write)
  }

  ghost predicate Inv(w: World) {
    && TableOk(w.table) && SlotsOk(w.table.events) && TokensOk(Tokens(w), w.fibers)
    && RunnersOk(Gather(w.workers, RunTok), w.fibers) && HoldersOk(w.workers, w.fibers)
    && TasksOk(w.table, Gather(w.workers, InFlight), w.active, w.finished) && AlarmsOk(w.alarms) && FibersOk(w.fibers)
  }

  // ----- How a step changes the wake-ups -----

  lemma {:induction false} TasksTok(tasks: seq<Task>, q: seq<Task>)
    ensures Gather(q + tasks, TaskTok) == Gather(q, TaskTok) + Gather(tasks, TaskTok)
  {
    GatherConcat(q, tasks, TaskTok);
  }

  lemma WokenTok(c: Ctx)
    requires c.cb.None? || c.fiber.None?
    ensures Gather(Woken(c), TaskTok) == CtxTok(c)
  {
    if Woken(c) != [] { GatherOne(Woken(c)[0], TaskTok); }
  }

  /** A trigger moves a wake-up from its slot to the queue. */
  lemma TriggerTokens(tb: Table, fd: nat, dir: Dir)
    requires fd < |tb.events| && EntryOk(tb.events[fd], fd)
    ensures
      var t := Trigger(tb, fd, dir);
      Gather(t.queue, TaskTok) + Gather(t.events, EventTok) == Gather(tb.queue, TaskTok) + Gather(tb.events, EventTok)
      && |t.events| == |tb.events| && EntryOk(t.events[fd], fd)
  {
    hide TaskTok, EventTok, CtxTok, Woken;
    var e := tb.events[fd];
    TriggerOk(e, fd, dir);
    var n := WithCtx(e.(mask := e.mask.Minus(dir)), dir, EMPTY);
    GatherSet(tb.events, fd, n, EventTok);
    TasksTok(Woken(CtxOf(e, dir)), tb.queue);
    SlotTokens(e, fd, dir);
    Lost(Gather(tb.events, EventTok), Gather(tb.events[fd := n], EventTok), EventTok(e), EventTok(n),
         Gather(Woken(CtxOf(e, dir)), TaskTok));
  }

  lemma SlotTokens(e: Event, fd: nat, dir: Dir)
    requires EntryOk(e, fd)
    ensures
      EventTok(e) == EventTok(WithCtx(e.(mask := e.mask.Minus(dir)), dir, EMPTY))
        + Gather(Woken(CtxOf(e, dir)), TaskTok)
  {
    hide TaskTok, Woken;
    WokenTok(CtxOf(e, dir));
  }

  lemma CancelTokens(tb: Table, fd: nat, dir: Dir)
    requires TableOk(tb)
    ensures
      var t := CancelEvent(tb, fd, dir);
      Gather(t.queue, TaskTok) + Gather(t.events, EventTok) == Gather(tb.queue, TaskTok) + Gather(tb.events, EventTok)
  {
    hide TaskTok, EventTok, Trigger;
    if fd < |tb.events| && tb.events[fd].mask.Has(dir) {
      var e := tb.events[fd];
      assert EntryOk(e, fd);
      TriggerTokens(tb.(kernel := Applied(tb.kernel, if e.mask.Minus(dir) == NONE then Del else Mod, fd, e.mask)), fd,
                    dir);
    }
  }

  lemma ReportTokens(tb: Table, fd: nat, ready: Mask)
    requires TableOk(tb) && fd < |tb.events|
    ensures
      var t := HandleEvent(tb, fd, ready);
      Gather(t.queue, TaskTok) + Gather(t.events, EventTok) == Gather(tb.queue, TaskTok) + Gather(tb.events, EventTok)
  {
    hide TaskTok, EventTok, Trigger;
    var e := tb.events[fd];
    assert EntryOk(e, fd);
    if e.mask.Meets(ready) {
      var left := e.mask.Without(ready);
      var o := EpollCtl(tb.kernel, if left == NONE then Del else Mod, fd, left);
      if o.Some? {
        var a := tb.(kernel := o.value);
        if ready.Has(In) { TriggerTokens(a, fd, In); }
        var b := TriggerIf(a, fd, In, ready);
        if ready.Has(Out) { TriggerTokens(b, fd, Out); }
      }
    }
  }

  lemma {:induction false} FreshTokens(n: nat, m: nat)
    requires n <= m
    ensures Gather(Fresh(n, m), EventTok) == multiset{}
    decreases m - n
  {
    if n < m {
      assert Fresh(n, m)[1..] == Fresh(n + 1, m);
      FreshTokens(n + 1, m);
    }
  }

  lemma GrownTokens(events: seq<Event>, fd: nat)
    requires 128 <= |events|
    ensures Gather(Grown(events, fd), EventTok) == Gather(events, EventTok)
  {
    hide EventTok, Fresh;
    GrowthKeeps(events, fd);
    if 5 * fd >= 4 * |events| && 3 * fd / 2 > |events| {
      FreshTokens(|events|, 3 * fd / 2);
      GatherConcat(events, Fresh(|events|, 3 * fd / 2), EventTok);
    } else {
      assert Grown(events, fd) == events;
    }
  }

  /** `addEvent` on a free slot adds the wake-up of its waiter and nothing else. */
  lemma AddEventTokens(tb: Table, fd: nat, dir: Dir, ctx: Ctx)
    requires TableOk(tb) && ctx.cb.Some? != ctx.fiber.Some?
    ensures fd < |Grown(tb.events, fd)|
    ensures
      var t := AddEvent(tb, fd, dir, ctx);
      Gather(t.events, EventTok)
        == Gather(tb.events, EventTok) + if Grown(tb.events, fd)[fd].mask.Has(dir) then multiset{} else CtxTok(ctx)
  {
    hide EventTok, CtxTok, AddEvent, Grown;
    AddEventKeeps(tb, fd, dir, ctx);
    GrownOk(tb, fd);
    GrownTokens(tb.events, fd);
    var g := Grown(tb.events, fd);
    var e := g[fd];
    assert EntryOk(e, fd);
    if !e.mask.Has(dir) {
      var n := WithCtx(e.(mask := e.mask.Plus(dir)), dir, ctx);
      GatherSet(g, fd, n, EventTok);
      FilledTokens(e, fd, dir, ctx);
      Gained(Gather(g, EventTok), Gather(g[fd := n], EventTok), EventTok(e), EventTok(n), CtxTok(ctx));
    }
  }

  lemma FilledTokens(e: Event, fd: nat, dir: Dir, ctx: Ctx)
    requires EntryOk(e, fd) && !e.mask.Has(dir)
    ensures EventTok(WithCtx(e.(mask := e.mask.Plus(dir)), dir, ctx)) == EventTok(e) + CtxTok(ctx)
  {
  }

  /** Callbacks registered with `addEvent` are never `Wake` jobs, so a slot without a fiber holds no wake-up. */
  lemma CloseTokens(tb: Table, fd: nat)
    requires TableOk(tb) && (fd < |tb.events| ==> EventTok(tb.events[fd]) == multiset{})
    ensures Gather(DelEvent(tb, fd).events, EventTok) == Gather(tb.events, EventTok)
  {
    hide EventTok;
    if fd < |tb.events| && tb.events[fd].mask != NONE {
      var n := tb.events[fd].(mask := NONE, read := EMPTY, write := EMPTY);
      GatherSet(tb.events, fd, n, EventTok);
      EmptyTokens(n);
      Gained(Gather(tb.events, EventTok), Gather(tb.events[fd := n], EventTok), EventTok(tb.events[fd]), EventTok(n),
             multiset{});
    }
  }

  lemma EmptyTokens(e: Event)
    requires e.read == EMPTY && e.write == EMPTY
    ensures EventTok(e) == multiset{}
  {
  }

  // ----- Steps that change the table only -----

  ghost predicate Conserves(a: Table, b: Table) {
    b.accepted + multiset(a.queue) == a.accepted + multiset(b.queue)
  }

  /** A table step keeps the order of the world when it moves wake-ups and conserves tasks. */
  lemma TableStep(w: World, tb: Table)
    requires Inv(w) && TableOk(tb) && SlotsOk(tb.events) && Conserves(w.table, tb)
    requires Gather(tb.queue, TaskTok) + Gather(tb.events, EventTok)
      == Gather(w.table.queue, TaskTok) + Gather(w.table.events, EventTok)
    ensures Inv(w.(table := tb))
  {
    hide TableOk, SlotsOk, TokensOk, RunnersOk, HoldersOk, TasksOk, AlarmsOk, FibersOk, Conserves;
    assert Tokens(w.(table := tb)) == Tokens(w);
    StillConserved(w.table, tb, Gather(w.workers, InFlight), w.active, w.finished);
  }

  lemma StillConserved(a: Table, b: Table, flying: multiset<Task>, active: int, finished: multiset<Task>)
    requires TasksOk(a, flying, active, finished) && Conserves(a, b)
    ensures TasksOk(b, flying, active, finished)
  {
    forall x: Task ensures b.accepted[x] == (multiset(b.queue) + flying + finished)[x] {
      assert (b.accepted + multiset(a.queue))[x] == (a.accepted + multiset(b.queue))[x];
    }
  }

  lemma AddTasksConserves(tb: Table, tasks: seq<Task>)
    ensures Conserves(tb, AddTasks(tb, tasks))
  {
    assert multiset(tb.queue + tasks) == multiset(tb.queue) + multiset(tasks);
  }

  lemma CancelSays(tb: Table, fd: nat, dir: Dir)
    requires TableOk(tb) && SlotsOk(tb.events)
    ensures TableOk(CancelEvent(tb, fd, dir)) && SlotsOk(CancelEvent(tb, fd, dir).events)
      && Conserves(tb, CancelEvent(tb, fd, dir))
  {
    hide TableOk, Woken;
    CancelEventKeeps(tb, fd, dir);
    if fd < |tb.events| { AddTasksConserves(tb, Woken(CtxOf(tb.events[fd], dir))); }
  }

  lemma ReportSays(tb: Table, fd: nat, ready: Mask)
    requires TableOk(tb) && SlotsOk(tb.events) && fd < |tb.events|
    ensures TableOk(HandleEvent(tb, fd, ready)) && SlotsOk(HandleEvent(tb, fd, ready).events)
    ensures Conserves(tb, HandleEvent(tb, fd, ready))
  {
    hide TableOk, HandleEvent, WokenBy;
    HandleEventSays(tb, fd, ready);
    AddTasksConserves(tb, WokenBy(tb.events[fd], ready));
  }

  lemma AddEventSays(tb: Table, fd: nat, dir: Dir, ctx: Ctx)
    requires TableOk(tb) && SlotsOk(tb.events) && ctx.cb.Some? != ctx.fiber.Some? && NoWake(ctx)
    ensures fd < |Grown(tb.events, fd)| && TableOk(AddEvent(tb, fd, dir, ctx))
      && SlotsOk(AddEvent(tb, fd, dir, ctx).events)
    ensures AddEvent(tb, fd, dir, ctx).queue == tb.queue && AddEvent(tb, fd, dir, ctx).accepted == tb.accepted
  {
    hide TableOk, AddEvent, Grown;
    AddEventKeeps(tb, fd, dir, ctx);
    BigTable(tb);
    GrowthKeeps(tb.events, fd);
    var g := Grown(tb.events, fd);
    forall i | 0 <= i < |g| ensures NoWake(g[i].read) && NoWake(g[i].write) {
      if i < |tb.events| { assert g[i] == tb.events[i]; }
    }
  }

  lemma BigTable(tb: Table)
    requires TableOk(tb)
    ensures 128 <= |tb.events|
  {
  }

  lemma SubmitKeeps(w: World, job: Job, thread: Option<nat>)
    requires Inv(w) && !job.Wake?
    ensures Inv(w.(table := AddTasks(w.table, [Pinned(w, OfJob(job), thread)])))
  {
    hide TableOk, SlotsOk, Inv;
    var task := Pinned(w, OfJob(job), thread);
    InvTable(w);
    AddTasksConserves(w.table, [task]);
    GatherSnoc(w.table.queue, task, TaskTok);
    QueueChanged(w.table, AddTasks(w.table, [task]));
    TableStep(w, AddTasks(w.table, [task]));
  }

  lemma InvTable(w: World)
    requires Inv(w)
    ensures TableOk(w.table) && SlotsOk(w.table.events)
  {
  }

  lemma QueueChanged(a: Table, b: Table)
    requires TableOk(a) && SlotsOk(a.events) && b.events == a.events && b.kernel == a.kernel
    ensures TableOk(b) && SlotsOk(b.events)
  {
  }

  lemma WatchKeeps(w: World, fd: nat, dir: Dir, job: Job)
    requires Inv(w) && !job.Wake? && fd < |Grown(w.table.events, fd)|
    ensures Inv(w.(table := AddEvent(w.table, fd, dir, Ctx(Some(job), None))))
  {
    hide TableOk, SlotsOk, Inv, AddEvent, Grown;
    var ctx := Ctx(Some(job), None);
    InvTable(w);
    AddEventSays(w.table, fd, dir, ctx);
    AddEventTokens(w.table, fd, dir, ctx);
    assert CtxTok(ctx) == multiset{};
    TableStep(w, AddEvent(w.table, fd, dir, ctx));
  }

  lemma CancelKeeps(w: World, fd: nat, dir: Dir)
    requires Inv(w)
    ensures Inv(w.(table := CancelEvent(w.table, fd, dir)))
  {
    hide TableOk, SlotsOk, Inv, CancelEvent;
    InvTable(w);
    CancelSays(w.table, fd, dir);
    CancelTokens(w.table, fd, dir);
    TableStep(w, CancelEvent(w.table, fd, dir));
  }

  lemma ReportKeeps(w: World, fd: nat, ready: Mask)
    requires Inv(w) && fd < |w.table.events|
    ensures Inv(w.(table := HandleEvent(w.table, fd, ready)))
  {
    hide TableOk, SlotsOk, Inv, HandleEvent;
    InvTable(w);
    ReportSays(w.table, fd, ready);
    ReportTokens(w.table, fd, ready);
    TableStep(w, HandleEvent(w.table, fd, ready));
  }

  lemma CloseSays(tb: Table, fd: nat)
    requires TableOk(tb) && SlotsOk(tb.events)
    requires fd < |tb.events| ==> tb.events[fd].read.fiber.None? && tb.events[fd].write.fiber.None?
    ensures TableOk(DelEvent(tb, fd)) && SlotsOk(DelEvent(tb, fd).events)
    ensures DelEvent(tb, fd).queue == tb.queue && DelEvent(tb, fd).accepted == tb.accepted
    ensures fd < |tb.events| ==> EventTok(tb.events[fd]) == multiset{}
  {
    hide TableOk;
    DelEventKeeps(tb, fd);
    if fd < |tb.events| { assert NoWake(tb.events[fd].read) && NoWake(tb.events[fd].write); }
  }

  lemma CloseKeeps(w: World, fd: nat)
    requires Inv(w) && Enabled(w, Close(fd))
    ensures Inv(w.(table := DelEvent(w.table, fd)))
  {
    hide TableOk, SlotsOk, Inv, DelEvent;
    InvTable(w);
    CloseSays(w.table, fd);
    CloseTokens(w.table, fd);
    TableStep(w, DelEvent(w.table, fd));
  }

  // ----- Timers -----

  lemma SetAlarmKeeps(w: World, job: Job, recurring: bool)
    requires Inv(w) && !job.Wake?
    ensures Inv(w.(alarms := w.alarms + [Alarm(job, recurring)]))
  {
    hide TableOk, SlotsOk, TokensOk, RunnersOk, HoldersOk, TasksOk, FibersOk;
    var v := w.(alarms := w.alarms + [Alarm(job, recurring)]);
    GatherSnoc(w.alarms, Alarm(job, recurring), AlarmTok);
    assert Tokens(v) == Tokens(w);
  }

  lemma AlarmsLeft(alarms: seq<Alarm>, i: nat)
    requires AlarmsOk(alarms) && i < |alarms|
    ensures AlarmsOk(Remove(alarms, i))
  {
  }

  lemma DropAlarmKeeps(w: World, i: nat)
    requires Inv(w) && i < |w.alarms| && !w.alarms[i].job.Wake?
    ensures Inv(w.(alarms := Remove(w.alarms, i)))
  {
    hide TableOk, SlotsOk, TokensOk, RunnersOk, HoldersOk, TasksOk, FibersOk, AlarmsOk, Remove;
    var v := w.(alarms := Remove(w.alarms, i));
    AlarmsLeft(w.alarms, i);
    GatherRemove(w.alarms, i, AlarmTok);
    assert Tokens(v) == Tokens(w);
  }

  lemma ExpireTokens(w: World, i: nat)
    requires i < |w.alarms| && AlarmsOk(w.alarms)
    ensures Tokens(Expired(w, i)) == Tokens(w) && AlarmsOk(Expired(w, i).alarms)
  {
    hide AlarmsOk, Remove;
    var alarm := w.alarms[i];
    var task := Task(OfJob(alarm.job), None);
    GatherSnoc(w.table.queue, task, TaskTok);
    if alarm.recurring {
      OnlyOnce(w.alarms, i);
    } else {
      AlarmsLeft(w.alarms, i);
      GatherRemove(w.alarms, i, AlarmTok);
    }
  }

  /** A timer's callback is queued; the wake-up of a sleeping fiber goes with it. */
  lemma ExpireKeeps(w: World, i: nat)
    requires Inv(w) && i < |w.alarms|
    ensures Inv(Expired(w, i))
  {
    hide TableOk, SlotsOk, TokensOk, RunnersOk, HoldersOk, TasksOk, FibersOk, AlarmsOk, Remove, Conserves, Tokens;
    var tb := Expired(w, i).table;
    AddTasksConserves(w.table, [Task(OfJob(w.alarms[i].job), None)]);
    StillConserved(w.table, tb, Gather(w.workers, InFlight), w.active, w.finished);
    QueueChanged(w.table, tb);
    ExpireTokens(w, i);
  }

  lemma OnlyOnce(alarms: seq<Alarm>, i: nat)
    requires AlarmsOk(alarms) && i < |alarms| && alarms[i].recurring
    ensures !alarms[i].job.Wake?
  {
  }

  // ----- Steps of workers and fibers -----

  lemma GatherSame<T, X>(s: seq<T>, i: nat, x: T, f: T -> multiset<X>)
    requires i < |s| && f(x) == f(s[i])
    ensures Gather(s[i := x], f) == Gather(s, f)
  {
    hide Gather;
    GatherSet(s, i, x, f);
    assert f(x) == f(s[i]) + multiset{};
    Gained(Gather(s, f), Gather(s[i := x], f), f(s[i]), f(x), multiset{});
  }

  lemma GatherMore<T, X>(s: seq<T>, i: nat, x: T, f: T -> multiset<X>)
    requires i < |s| && f(s[i]) == multiset{}
    ensures Gather(s[i := x], f) == Gather(s, f) + f(x)
  {
    hide Gather;
    GatherSet(s, i, x, f);
    Gained(Gather(s, f), Gather(s[i := x], f), f(s[i]), f(x), f(x));
  }

  lemma GatherLess<T, X>(s: seq<T>, i: nat, x: T, f: T -> multiset<X>)
    requires i < |s| && f(x) == multiset{}
    ensures Gather(s[i := x], f) + f(s[i]) == Gather(s, f)
  {
    hide Gather;
    GatherSet(s, i, x, f);
    Lost(Gather(s, f), Gather(s[i := x], f), f(s[i]), f(x), f(s[i]));
  }

  lemma WorkerIdles(workers: seq<Worker>, t: nat, k: Worker)
    requires t < |workers| && (workers[t].Looping? || workers[t].Idling?) && (k.Looping? || k.Idling?)
    ensures Gather(workers[t := k], WorkerTok) == Gather(workers, WorkerTok)
    ensures Gather(workers[t := k], RunTok) == Gather(workers, RunTok)
    ensures Gather(workers[t := k], InFlight) == Gather(workers, InFlight)
  {
    hide Gather;
    GatherSame(workers, t, k, WorkerTok);
    GatherSame(workers, t, k, RunTok);
    GatherSame(workers, t, k, InFlight);
  }

  lemma WorkerTakes(workers: seq<Worker>, t: nat, task: Task)
    requires t < |workers| && workers[t].Looping?
    ensures Gather(workers[t := Holding(task)], WorkerTok) == Gather(workers, WorkerTok) + TaskTok(task)
    ensures Gather(workers[t := Holding(task)], RunTok) == Gather(workers, RunTok)
    ensures Gather(workers[t := Holding(task)], InFlight) == Gather(workers, InFlight) + multiset{task}
  {
    hide Gather, TaskTok;
    GatherMore(workers, t, Holding(task), WorkerTok);
    GatherSame(workers, t, Holding(task), RunTok);
    GatherMore(workers, t, Holding(task), InFlight);
  }

  lemma WorkerStarts(workers: seq<Worker>, t: nat, f: nat)
    requires t < |workers| && workers[t].Holding?
    ensures
      var k := Running(f, workers[t].task);
      Gather(workers[t := k], WorkerTok) + TaskTok(workers[t].task) == Gather(workers, WorkerTok)
      && Gather(workers[t := k], RunTok) == Gather(workers, RunTok) + multiset{f}
      && Gather(workers[t := k], InFlight) == Gather(workers, InFlight)
  {
    hide Gather, TaskTok;
    var k := Running(f, workers[t].task);
    GatherLess(workers, t, k, WorkerTok);
    GatherMore(workers, t, k, RunTok);
    GatherSame(workers, t, k, InFlight);
  }

  lemma WorkerStops(workers: seq<Worker>, t: nat)
    requires t < |workers| && workers[t].Running?
    ensures
      var k := Settling(workers[t].task);
      Gather(workers[t := k], WorkerTok) == Gather(workers, WorkerTok)
      && Gather(workers[t := k], RunTok) + multiset{workers[t].fiber} == Gather(workers, RunTok)
      && Gather(workers[t := k], InFlight) == Gather(workers, InFlight)
  {
    hide Gather;
    var k := Settling(workers[t].task);
    GatherSame(workers, t, k, WorkerTok);
    GatherLess(workers, t, k, RunTok);
    GatherSame(workers, t, k, InFlight);
  }

  lemma WorkerSettles(workers: seq<Worker>, t: nat)
    requires t < |workers| && workers[t].Settling?
    ensures Gather(workers[t := Looping], WorkerTok) == Gather(workers, WorkerTok)
    ensures Gather(workers[t := Looping], RunTok) == Gather(workers, RunTok)
    ensures Gather(workers[t := Looping], InFlight) + multiset{workers[t].task} == Gather(workers, InFlight)
  {
    hide Gather;
    GatherSame(workers, t, Looping, WorkerTok);
    GatherSame(workers, t, Looping, RunTok);
    GatherLess(workers, t, Looping, InFlight);
  }

  lemma StopsHolding(workers: seq<Worker>, fibers: seq<Fiber>, t: nat, k: Worker)
    requires HoldersOk(workers, fibers) && t < |workers| && !k.Holding?
    ensures HoldersOk(workers[t := k], fibers)
  {
  }

  /** A worker moves between states that hold nothing. */
  lemma EmptyMoves(w: World, t: nat, k: Worker)
    requires Inv(w) && t < |w.workers| && (w.workers[t].Looping? || w.workers[t].Idling?) && (k.Looping? || k.Idling?)
    ensures Inv(SetWorker(w, t, k))
  {
    hide TableOk, SlotsOk, TokensOk, RunnersOk, TasksOk, FibersOk, AlarmsOk, HoldersOk, Gather;
    WorkerIdles(w.workers, t, k);
    StopsHolding(w.workers, w.fibers, t, k);
  }

  /** A fiber whose wake-up is somewhere is a fiber that is owed one. */
  lemma TokenMeans(w: World, f: nat)
    requires TokensOk(Tokens(w), w.fibers) && f in Tokens(w)
    ensures f < |w.fibers| && Owed(w.fibers[f]) == 1 && Tokens(w)[f] == 1
  {
    hide Tokens;
  }

  lemma QueueHas(w: World, i: nat)
    requires i < |w.table.queue| && w.table.queue[i].body.OfFiber?
    ensures w.table.queue[i].body.fiber in Tokens(w)
  {
    hide Gather;
    GatherHas(w.table.queue, i, TaskTok);
  }

  lemma WorkerHas(w: World, t: nat)
    requires t < |w.workers| && w.workers[t].Holding? && w.workers[t].task.body.OfFiber?
    ensures w.workers[t].task.body.fiber in Tokens(w)
  {
    hide Gather;
    GatherHas(w.workers, t, WorkerTok);
  }

  /** No two workers hold the same fiber. */
  lemma OneHolder(w: World, t: nat, u: nat, f: nat)
    requires TokensOk(Tokens(w), w.fibers) && t < u < |w.workers|
    requires w.workers[t].Holding? && w.workers[t].task.body == OfFiber(f)
    ensures !(w.workers[u].Holding? && w.workers[u].task.body == OfFiber(f))
  {
    hide TokensOk, Gather;
    WorkerHas(w, t);
    TokenMeans(w, f);
    GatherHasTwo(w.workers, t, u, WorkerTok);
    assert (WorkerTok(w.workers[t]) + WorkerTok(w.workers[u]))[f] <= Tokens(w)[f];
  }

  /** The running fiber executes, and nobody holds it. */
  lemma RunnerExecutes(w: World, t: nat)
    requires Inv(w) && RunsFiber(w, t)
    ensures FiberOn(w, t).state.Exec?
    ensures forall u :: 0 <= u < |w.workers| && w.workers[u].Holding? ==>
      w.workers[u].task.body != OfFiber(w.workers[t].fiber)
  {
    hide TableOk, SlotsOk, TokensOk, TasksOk, FibersOk, AlarmsOk, Gather, Tokens;
    GatherHas(w.workers, t, RunTok);
    assert w.workers[t].fiber in Gather(w.workers, RunTok);
  }

  // ----- Picking -----

  lemma PickedHolds(w: World, t: nat, i: nat)
    requires Inv(w) && t < |w.workers| && i < |w.table.queue| && Eligible(w.fibers, t, w.table.queue[i])
    ensures HoldersOk(w.workers[t := Holding(w.table.queue[i])], w.fibers)
  {
    hide TableOk, SlotsOk, TokensOk, TasksOk, FibersOk, AlarmsOk, RunnersOk, Gather, Tokens;
    if w.table.queue[i].body.OfFiber? {
      QueueHas(w, i);
      TokenMeans(w, w.table.queue[i].body.fiber);
    }
  }

  /** The search returns the first eligible task, if there is one. */
  lemma {:induction false} FirstIsEligible(fibers: seq<Fiber>, queue: seq<Task>, t: nat, i: nat)
    requires i <= |queue|
    ensures
      var r := FirstEligible(fibers, queue, t, i);
      (r.Some? ==> Eligible(fibers, t, queue[r.value]))
      && forall j :: i <= j < (if r.Some? then r.value else |queue|) ==> !Eligible(fibers, t, queue[j])
    decreases |queue| - i
  {
    hide Eligible;
    if i < |queue| && !Eligible(fibers, t, queue[i]) { FirstIsEligible(fibers, queue, t, i + 1); }
  }

  lemma PickTasks(w: World, t: nat, i: nat)
    requires TasksOk(w.table, Gather(w.workers, InFlight), w.active, w.finished) && t < |w.workers|
    requires w.workers[t].Looping?
    requires i < |w.table.queue|
    ensures
      var task := w.table.queue[i];
      TasksOk(w.table.(queue := Remove(w.table.queue, i)), Gather(w.workers[t := Holding(task)], InFlight),
              w.active + 1, w.finished)
  {
    hide Gather;
    var task, q := w.table.queue[i], w.table.queue;
    WorkerTakes(w.workers, t, task);
    assert q == q[..i] + [task] + q[i + 1..];
    assert multiset(q) == multiset(q[..i]) + multiset{task} + multiset(q[i + 1..]);
    assert multiset(Remove(q, i)) == multiset(q[..i]) + multiset(q[i + 1..]);
  }

  lemma PickKeeps(w: World, t: nat)
    requires Inv(w) && t < |w.workers| && w.workers[t].Looping?
    ensures Inv(Picked(w, t))
  {
    hide TableOk, SlotsOk, TokensOk, TasksOk, FibersOk, AlarmsOk, RunnersOk, HoldersOk, Gather, FirstEligible,
         Eligible, Remove;
    FirstIsEligible(w.fibers, w.table.queue, t, 0);
    match FirstEligible(w.fibers, w.table.queue, t, 0)
    case None => EmptyMoves(w, t, Idling);
    case Some(i) =>
      var task := w.table.queue[i];
      PickTasks(w, t, i);
      PickedHolds(w, t, i);
      QueueChanged(w.table, w.table.(queue := Remove(w.table.queue, i)));
      PickTokens(w, t, i);
  }

  lemma PickTokens(w: World, t: nat, i: nat)
    requires i < |w.table.queue| && t < |w.workers| && w.workers[t].Looping?
    ensures
      var v := SetWorker(w, t, Holding(w.table.queue[i])).(table := w.table.(queue := Remove(w.table.queue, i)),
                                                           active := w.active + 1);
      Tokens(v) == Tokens(w) && Gather(v.workers, RunTok) == Gather(w.workers, RunTok)
  {
    hide Gather, Remove, TaskTok;
    var task, q := w.table.queue[i], w.table.queue;
    WorkerTakes(w.workers, t, task);
    GatherRemove(q, i, TaskTok);
    assert Gather(Remove(q, i), TaskTok) + TaskTok(task) == Gather(q, TaskTok);
  }

  // ----- Resuming -----

  lemma ResumeFiberTokens(w: World, t: nat, f: nat)
    requires Inv(w) && Enabled(w, Resume(t)) && w.workers[t].task.body == OfFiber(f)
    ensures w.fibers[f] == w.fibers[f].(state := Hold, parking := false)
    ensures Tokens(Resumed(w, t)) + multiset{f} == Tokens(w)
    ensures Gather(Resumed(w, t).workers, RunTok) == Gather(w.workers, RunTok) + multiset{f}
    ensures Gather(Resumed(w, t).workers, InFlight) == Gather(w.workers, InFlight)
  {
    hide TableOk, SlotsOk, TokensOk, TasksOk, AlarmsOk, RunnersOk, Gather;
    WorkerStarts(w.workers, t, f);
    GatherSame(w.fibers, f, w.fibers[f].(state := Exec), FiberTok);
  }

  lemma ResumeFiberKeeps(w: World, t: nat, f: nat)
    requires Inv(w) && Enabled(w, Resume(t)) && w.workers[t].task.body == OfFiber(f)
    ensures Inv(Resumed(w, t))
  {
    hide TableOk, SlotsOk, TasksOk, AlarmsOk, Gather, Tokens;
    ResumeFiberTokens(w, t, f);
    WorkerHas(w, t);
    TokenMeans(w, f);
    var v := Resumed(w, t);
    forall g: nat ensures Tokens(v)[g] == (if g < |v.fibers| then Owed(v.fibers[g]) else 0) {
      assert (Tokens(v) + multiset{f})[g] == Tokens(w)[g];
    }
    forall u | 0 <= u < |w.workers| && v.workers[u].Holding? && v.workers[u].task.body.OfFiber?
      ensures v.workers[u].task.body.fiber != f
    {
      if v.workers[u].task.body.fiber == f {
        if u < t { OneHolder(w, u, t, f); } else { OneHolder(w, t, u, f); }
      }
    }
  }

  lemma NewFiber(tokens: multiset<nat>, runs: multiset<nat>, fibers: seq<Fiber>, b: Fiber)
    requires TokensOk(tokens, fibers) && RunnersOk(runs, fibers) && FibersOk(fibers) && !b.parking
    ensures b.state.Exec? ==> TokensOk(tokens, fibers + [b]) && RunnersOk(runs + multiset{|fibers|}, fibers + [b])
    ensures b.state.Hold? ==> TokensOk(tokens + multiset{|fibers|}, fibers + [b]) && RunnersOk(runs, fibers + [b])
    ensures FibersOk(fibers + [b])
  {
  }

  lemma MoreFibers(workers: seq<Worker>, fibers: seq<Fiber>, b: Fiber)
    requires HoldersOk(workers, fibers)
    ensures HoldersOk(workers, fibers + [b])
  {
  }

  /** A picked function starts in a fiber of its own, which carries what the function will do. */
  lemma ResumeJobKeeps(w: World, t: nat, j: Job)
    requires Inv(w) && Enabled(w, Resume(t)) && w.workers[t].task.body == OfJob(j)
    ensures Inv(Resumed(w, t))
  {
    hide TableOk, SlotsOk, TasksOk, AlarmsOk, Gather, TokensOk, RunnersOk, HoldersOk, FibersOk, JobTok;
    var task, b, f := w.workers[t].task, Fiber(Exec, Some(j), false), |w.fibers|;
    NewFiber(Tokens(w), Gather(w.workers, RunTok), w.fibers, b);
    MoreFibers(w.workers, w.fibers, b);
    StopsHolding(w.workers, w.fibers + [b], t, Running(f, task));
    WorkerStarts(w.workers, t, f);
    GatherSnoc(w.fibers, b, FiberTok);
    assert Tokens(Resumed(w, t)) == Tokens(w);
  }

  lemma SpawnKeeps(w: World, job: Job, thread: Option<nat>)
    requires Inv(w) && !job.Wake?
    ensures Inv(Spawned(w, job, thread))
  {
    hide TableOk, SlotsOk, TasksOk, AlarmsOk, Gather, TokensOk, RunnersOk, HoldersOk, FibersOk, Conserves;
    var b, f := Fiber(Hold, Some(job), false), |w.fibers|;
    var task := Pinned(w, OfFiber(f), thread);
    var tb := AddTasks(w.table, [task]);
    AddTasksConserves(w.table, [task]);
    StillConserved(w.table, tb, Gather(w.workers, InFlight), w.active, w.finished);
    QueueChanged(w.table, tb);
    NewFiber(Tokens(w), Gather(w.workers, RunTok), w.fibers, b);
    MoreFibers(w.workers, w.fibers, b);
    GatherSnoc(w.fibers, b, FiberTok);
    GatherSnoc(w.table.queue, task, TaskTok);
    assert Tokens(Spawned(w, job, thread)) == Tokens(w) + multiset{f};
  }

  // ----- Running -----

  /** The running fiber changes, but stays executing. */
  lemma FiberChanges(tokens: multiset<nat>, after: multiset<nat>, fibers: seq<Fiber>, f: nat, b: Fiber)
    requires TokensOk(tokens, fibers) && f < |fibers|
    requires Owed(b) == Owed(fibers[f]) ==> after == tokens
    requires Owed(b) == Owed(fibers[f]) + 1 ==> after == tokens + multiset{f}
    requires Owed(b) == Owed(fibers[f]) || Owed(b) == Owed(fibers[f]) + 1
    ensures TokensOk(after, fibers[f := b])
  {
  }

  lemma ExecStays(runs: multiset<nat>, workers: seq<Worker>, fibers: seq<Fiber>, f: nat, b: Fiber)
    requires RunnersOk(runs, fibers) && HoldersOk(workers, fibers) && FibersOk(fibers) && f < |fibers|
    requires fibers[f].state.Exec? && b.state.Exec? && (b.parking ==> b.todo.None?)
    ensures RunnersOk(runs, fibers[f := b]) && HoldersOk(workers, fibers[f := b]) && FibersOk(fibers[f := b])
  {
  }

  lemma EffectSays(tb: Table, job: Job)
    requires TableOk(tb) && SlotsOk(tb.events)
    ensures TableOk(Effect(tb, job)) && SlotsOk(Effect(tb, job).events) && Conserves(tb, Effect(tb, job))
    ensures Gather(Effect(tb, job).queue, TaskTok) + Gather(Effect(tb, job).events, EventTok)
      == Gather(tb.queue, TaskTok) + Gather(tb.events, EventTok) + JobTok(job)
  {
    hide TableOk, SlotsOk, Gather, CancelEvent, Conserves;
    match job
    case User(_) => NothingAdded(tb);
    case Wake(f) =>
      AddTasksConserves(tb, [Task(OfFiber(f), None)]);
      QueueChanged(tb, AddTasks(tb, [Task(OfFiber(f), None)]));
      GatherSnoc(tb.queue, Task(OfFiber(f), None), TaskTok);
    case CancelIo(fd, dir) =>
      CancelSays(tb, fd, dir);
      CancelTokens(tb, fd, dir);
  }

  lemma NothingAdded(tb: Table)
    ensures Conserves(tb, tb)
  {
  }

  /** Running a callback hands its wake-up on: from the fiber that runs it to the queue. */
  lemma RanTokens(w: World, t: nat)
    requires Inv(w) && RunsFiber(w, t) && FiberOn(w, t).todo.Some?
    ensures Tokens(Ran(w, t)) == Tokens(w)
  {
    hide TableOk, SlotsOk, TokensOk, RunnersOk, HoldersOk, TasksOk, AlarmsOk, FibersOk, Gather, JobTok, Effect;
    var b := FiberOn(w, t);
    EffectSays(w.table, b.todo.value);
    GatherLess(w.fibers, w.workers[t].fiber, b.(todo := None), FiberTok);
  }

  lemma RanKeeps(w: World, t: nat)
    requires Inv(w) && RunsFiber(w, t) && FiberOn(w, t).todo.Some?
    ensures Inv(Ran(w, t))
  {
    hide TableOk, SlotsOk, TokensOk, RunnersOk, HoldersOk, TasksOk, AlarmsOk, FibersOk, Gather, Tokens, Effect,
         Conserves;
    var b, f := FiberOn(w, t), w.workers[t].fiber;
    RunnerExecutes(w, t);
    RanTokens(w, t);
    EffectSays(w.table, b.todo.value);
    StillConserved(w.table, Effect(w.table, b.todo.value), Gather(w.workers, InFlight), w.active, w.finished);
    FiberChanges(Tokens(w), Tokens(Ran(w, t)), w.fibers, f, b.(todo := None));
    TodoMeans(w.fibers, f);
    ExecStays(Gather(w.workers, RunTok), w.workers, w.fibers, f, b.(todo := None));
  }

  lemma TodoMeans(fibers: seq<Fiber>, f: nat)
    requires FibersOk(fibers) && f < |fibers|
    ensures fibers[f].parking ==> fibers[f].state.Exec? && fibers[f].todo.None?
  {
  }

  /** `io_func` puts the wake-up of its own fiber into the slot. */
  lemma RegisterKeeps(w: World, t: nat, fd: nat, dir: Dir)
    requires Inv(w) && Enabled(w, Register(t, fd, dir))
    ensures Inv(Registered(w, t, fd, dir))
  {
    hide TableOk, SlotsOk, TokensOk, RunnersOk, HoldersOk, TasksOk, AlarmsOk, FibersOk, Gather, AddEvent, Grown,
         Conserves;
    var b, f := FiberOn(w, t), w.workers[t].fiber;
    var ctx := Ctx(None, Some(f));
    var tb := AddEvent(w.table, fd, dir, ctx);
    RunnerExecutes(w, t);
    AddEventSays(w.table, fd, dir, ctx);
    AddEventTokens(w.table, fd, dir, ctx);
    FreeSlot(w.table, fd, dir);
    assert CtxTok(ctx) == multiset{f};
    TasksDoNotSeeEvents(w.table, tb, Gather(w.workers, InFlight), w.active, w.finished);
    GatherSame(w.fibers, f, b.(parking := true), FiberTok);
    assert Tokens(Registered(w, t, fd, dir)) == Tokens(w) + multiset{f};
    FiberChanges(Tokens(w), Tokens(w) + multiset{f}, w.fibers, f, b.(parking := true));
    ExecStays(Gather(w.workers, RunTok), w.workers, w.fibers, f, b.(parking := true));
  }

  lemma FreeSlot(tb: Table, fd: nat, dir: Dir)
    requires TableOk(tb) && fd < |Grown(tb.events, fd)| && (fd < |tb.events| ==> !tb.events[fd].mask.Has(dir))
    ensures !Grown(tb.events, fd)[fd].mask.Has(dir)
  {
    hide Grown;
    BigTable(tb);
    GrowthKeeps(tb.events, fd);
    if fd < |tb.events| { assert Grown(tb.events, fd)[fd] == tb.events[fd]; }
  }

  lemma TasksDoNotSeeEvents(a: Table, b: Table, flying: multiset<Task>, active: int, finished: multiset<Task>)
    requires TasksOk(a, flying, active, finished) && b.queue == a.queue && b.accepted == a.accepted
    ensures TasksOk(b, flying, active, finished)
  {
  }

  /** `sleep` puts it into a timer. */
  lemma SleepKeeps(w: World, t: nat)
    requires Inv(w) && Free(w, t)
    ensures Inv(Slept(w, t))
  {
    hide TableOk, SlotsOk, TokensOk, RunnersOk, HoldersOk, TasksOk, FibersOk, Gather;
    var b, f := FiberOn(w, t), w.workers[t].fiber;
    var alarm := Alarm(Wake(f), false);
    RunnerExecutes(w, t);
    GatherSnoc(w.alarms, alarm, AlarmTok);
    GatherSame(w.fibers, f, b.(parking := true), FiberTok);
    assert Tokens(Slept(w, t)) == Tokens(w) + multiset{f};
    FiberChanges(Tokens(w), Tokens(w) + multiset{f}, w.fibers, f, b.(parking := true));
    ExecStays(Gather(w.workers, RunTok), w.workers, w.fibers, f, b.(parking := true));
  }

  // ----- Leaving a fiber -----

  lemma QuitFibers(runs: multiset<nat>, after: multiset<nat>, workers: seq<Worker>, fibers: seq<Fiber>, f: nat,
                   b: Fiber)
    requires RunnersOk(runs, fibers) && HoldersOk(workers, fibers) && FibersOk(fibers) && f < |fibers|
    requires fibers[f].state.Exec? && !b.state.Exec? && !b.parking && after + multiset{f} == runs
    requires forall u :: 0 <= u < |workers| && workers[u].Holding? ==> workers[u].task.body != OfFiber(f)
    ensures RunnersOk(after, fibers[f := b]) && HoldersOk(workers, fibers[f := b]) && FibersOk(fibers[f := b])
  {
    forall g: nat ensures after[g] == (if g < |fibers| && fibers[f := b][g].state.Exec? then 1 else 0) {
      assert (after + multiset{f})[g] == runs[g];
    }
  }

  /** A yield with its wake-up registered, or the end: the worker returns, and the debt of the fiber is as before. */
  lemma QuitKeeps(w: World, t: nat, state: FiberState)
    requires Inv(w) && RunsFiber(w, t)
    requires (state.Hold? && FiberOn(w, t).parking) || (state.Term? && Free(w, t))
    ensures Inv(Quit(w, t, state))
  {
    hide TableOk, SlotsOk, TokensOk, RunnersOk, HoldersOk, TasksOk, AlarmsOk, FibersOk, Gather;
    var b, f, task := FiberOn(w, t), w.workers[t].fiber, w.workers[t].task;
    var n := b.(state := state, parking := false);
    RunnerExecutes(w, t);
    WorkerStops(w.workers, t);
    StopsHolding(w.workers, w.fibers, t, Settling(task));
    GatherSame(w.fibers, f, n, FiberTok);
    assert Tokens(Quit(w, t, state)) == Tokens(w);
    FiberChanges(Tokens(w), Tokens(w), w.fibers, f, n);
    QuitFibers(Gather(w.workers, RunTok), Gather(w.workers[t := Settling(task)], RunTok),
               w.workers[t := Settling(task)], w.fibers, f, n);
  }

  lemma SettleKeeps(w: World, t: nat)
    requires Inv(w) && t < |w.workers| && w.workers[t].Settling?
    ensures Inv(Settled(w, t))
  {
    hide TableOk, SlotsOk, TokensOk, RunnersOk, HoldersOk, AlarmsOk, FibersOk, Gather;
    WorkerSettles(w.workers, t);
    StopsHolding(w.workers, w.fibers, t, Looping);
    assert w.finished + multiset{w.workers[t].task} + Gather(w.workers[t := Looping], InFlight)
        == w.finished + Gather(w.workers, InFlight);
  }

  // ----- Runs -----

  /** Every enabled step keeps the invariant. */
  lemma StepKeeps(w: World, s: Step)
    requires Inv(w) && Enabled(w, s)
    ensures Inv(Next(w, s))
  {
    hide Inv, AddTasks, AddEvent, CancelEvent, DelEvent, HandleEvent, Grown, Remove, Spawned, Picked, Resumed, Ran,
         Registered,
         Slept, Quit, Settled, Expired, SetWorker, Pinned;
    match s
    case Submit(job, thread) => SubmitKeeps(w, job, thread);
    case Spawn(job, thread) => SpawnKeeps(w, job, thread);
    case Pick(t) => PickKeeps(w, t);
    case Resume(t) =>
      match w.workers[t].task.body {
        case OfFiber(f) => ResumeFiberKeeps(w, t, f);
        case OfJob(j) => ResumeJobKeeps(w, t, j);
      }
    case RunJob(t) => RanKeeps(w, t);
    case Register(t, fd, dir) => RegisterKeeps(w, t, fd, dir);
    case Sleep(t) => SleepKeeps(w, t);
    case Park(t) => QuitKeeps(w, t, Hold);
    case Finish(t) => QuitKeeps(w, t, Term);
    case Settle(t) => SettleKeeps(w, t);
    case Watch(fd, dir, job) => WatchKeeps(w, fd, dir, job);
    case Cancel(fd, dir) => CancelKeeps(w, fd, dir);
    case Close(fd) => CloseKeeps(w, fd);
    case SetAlarm(job, recurring) => SetAlarmKeeps(w, job, recurring);
    case DropAlarm(i) => DropAlarmKeeps(w, i);
    case Report(_, fd, ready) => ReportKeeps(w, fd, ready);
    case Expire(_, i) => ExpireKeeps(w, i);
    case LeaveIdle(t) => EmptyMoves(w, t, Looping);
  }

  lemma {:induction false} LoopersHoldNothing(n: nat)
    ensures
      var workers := Boot(n).workers;
      Gather(workers, WorkerTok) == multiset{} && Gather(workers, RunTok) == multiset{}
        && Gather(workers, InFlight) == multiset{}
    decreases n
  {
    if n > 0 {
      LoopersHoldNothing(n - 1);
      assert Boot(n).workers[1..] == Boot(n - 1).workers;
    }
  }

  lemma BootTable(n: nat)
    ensures TableOk(Boot(n).table) && SlotsOk(Boot(n).table.events)
  {
  }

  lemma BootKeeps(n: nat)
    ensures Inv(Boot(n))
  {
    hide TableOk, SlotsOk, Gather;
    BootTable(n);
    LoopersHoldNothing(n);
    FreshTokens(0, 128);
    NothingGathered<Task>(TaskTok);
    NothingGathered<Alarm>(AlarmTok);
    NothingGathered<Fiber>(FiberTok);
    assert Tokens(Boot(n)) == multiset{};
  }

  lemma NothingGathered<T>(f: T -> multiset<nat>)
    ensures Gather([], f) == multiset{}
  {
  }

  lemma {:induction false} RunKeeps(w: World, steps: seq<Step>)
    requires Inv(w) && Runs(w, steps)
    ensures Inv(After(w, steps))
    decreases |steps|
  {
    hide Inv, Enabled, Next;
    if steps != [] {
      StepKeeps(w, steps[0]);
      RunKeeps(Next(w, steps[0]), steps[1..]);
    }
  }

  // ----- What every run guarantees -----

  lemma {:induction false} Found<T>(s: seq<T>, f: T -> multiset<nat>, x: nat) returns (i: nat)
    requires x in Gather(s, f)
    ensures i < |s| && x in f(s[i])
    decreases |s|
  {
    if x in f(s[0]) {
      i := 0;
    } else {
      var j := Found(s[1..], f, x);
      i := j + 1;
    }
  }

  predicate RunsOn(k: Worker, f: nat) { k.Running? && k.fiber == f }

  /** In every reachable world: a parked fiber has exactly one pending wake-up, an executing fiber at most one, a
      finished fiber none; and a fiber executes on exactly one worker or on none. */
  lemma EveryRun(n: nat, steps: seq<Step>, f: nat)
    requires Runs(Boot(n), steps)
    ensures
      var w := After(Boot(n), steps);
      f < |w.fibers| ==>
        && (w.fibers[f].state.Hold? ==> Tokens(w)[f] == 1)
        && (w.fibers[f].state.Exec? ==> Tokens(w)[f] <= 1)
        && (w.fibers[f].state.Term? ==> Tokens(w)[f] == 0)
        && (w.fibers[f].state.Exec? <==> exists t :: 0 <= t < |w.workers| && RunsOn(w.workers[t], f))
  {
    hide TableOk, SlotsOk, HoldersOk, TasksOk, AlarmsOk, FibersOk, Gather, Tokens, Runs, After, Boot;
    BootKeeps(n);
    RunKeeps(Boot(n), steps);
    var w := After(Boot(n), steps);
    if f < |w.fibers| {
      if w.fibers[f].state.Exec? {
        var t := Found(w.workers, RunTok, f);
        assert RunsOn(w.workers[t], f);
      } else {
        forall t | 0 <= t < |w.workers| ensures !RunsOn(w.workers[t], f) {
          GatherHas(w.workers, t, RunTok);
        }
      }
    }
  }

  /** No fiber executes on two workers. */
  lemma NeverTwice(n: nat, steps: seq<Step>, t: nat, u: nat)
    requires Runs(Boot(n), steps)
    ensures
      var w := After(Boot(n), steps);
      t < u < |w.workers| && w.workers[t].Running? && w.workers[u].Running? ==> w.workers[t].fiber != w.workers[u].fiber
  {
    hide TableOk, SlotsOk, TokensOk, HoldersOk, TasksOk, AlarmsOk, FibersOk, Gather, Tokens, Runs, After, Boot;
    BootKeeps(n);
    RunKeeps(Boot(n), steps);
    var w := After(Boot(n), steps);
    if t < u < |w.workers| && w.workers[t].Running? && w.workers[u].Running? {
      GatherHasTwo(w.workers, t, u, RunTok);
      var f := w.workers[t].fiber;
      assert (RunTok(w.workers[t]) + RunTok(w.workers[u]))[f] <= Gather(w.workers, RunTok)[f];
    }
  }

  /** Every accepted task is queued, in flight or finished, once; `mActiveCnt` is the number in flight; the table
      matches the kernel. */
  lemma NothingLost(n: nat, steps: seq<Step>)
    requires Runs(Boot(n), steps)
    ensures
      var w := After(Boot(n), steps);
      w.table.accepted == multiset(w.table.queue) + Gather(w.workers, InFlight) + w.finished
      && w.active == |Gather(w.workers, InFlight)| && TableOk(w.table)
  {
    hide TableOk, SlotsOk, TokensOk, HoldersOk, AlarmsOk, FibersOk, Gather, Tokens, Runs, After, Boot, RunnersOk;
    BootKeeps(n);
    RunKeeps(Boot(n), steps);
  }

  /** A wake-up that arrives between the registration and the yield: the queue entry is skipped by every worker as
      long as the fiber executes, and is eligible as soon as it has yielded. */
  lemma EarlyWakeWaits(w: World, t: nat, i: nat)
    requires Inv(w) && RunsFiber(w, t) && FiberOn(w, t).parking && i < |w.table.queue|
    requires w.table.queue[i] == Task(OfFiber(w.workers[t].fiber), None)
    ensures forall u :: 0 <= u < |w.workers| && w.workers[u].Looping? ==> w.table.queue[i] in Picked(w, u).table.queue
    ensures forall u :: Eligible(Quit(w, t, Hold).fibers, u, Quit(w, t, Hold).table.queue[i])
  {
    hide TableOk, SlotsOk, TokensOk, HoldersOk, TasksOk, AlarmsOk, FibersOk, Gather, Tokens, RunnersOk, FirstEligible;
    RunnerExecutes(w, t);
    var q := w.table.queue;
    forall u | 0 <= u < |w.workers| && w.workers[u].Looping? ensures q[i] in Picked(w, u).table.queue {
      FirstIsEligible(w.fibers, q, u, 0);
      match FirstEligible(w.fibers, q, u, 0)
      case None =>
      case Some(j) => assert Remove(q, j)[if i < j then i else i - 1] == q[i];
    }
  }

  /** A report for a direction that a fiber waits for schedules that fiber. */
  lemma ReportWakes(w: World, fd: nat, ready: Mask, dir: Dir, f: nat)
    requires Inv(w) && fd < |w.table.events| && ready.Has(dir) && CtxOf(w.table.events[fd], dir).fiber == Some(f)
    ensures Task(OfFiber(f), None) in HandleEvent(w.table, fd, ready).queue
  {
    hide TokensOk, HoldersOk, TasksOk, AlarmsOk, FibersOk, Gather, Tokens, RunnersOk, HandleEvent, TableOk;
    HandleEventSays(w.table, fd, ready);
    var e := w.table.events[fd];
    assert Woken(CtxOf(e, dir)) == [Task(OfFiber(f), None)];
    var x, y := WokenIf(e, In, ready), WokenIf(e, Out, ready);
    assert Task(OfFiber(f), None) in (if dir.In? then x else y);
    assert Task(OfFiber(f), None) in x + y;
  }

  // ----- The two assumptions are needed -----

  lemma CloseDrops(w: World, fd: nat)
    requires TableOk(w.table) && fd < |w.table.events| && w.table.events[fd].mask != NONE
    ensures Tokens(w.(table := DelEvent(w.table, fd))) + EventTok(w.table.events[fd]) == Tokens(w)
  {
    hide TableOk, Gather, EventTok, Applied;
    var e := w.table.events[fd];
    var n := e.(mask := NONE, read := EMPTY, write := EMPTY);
    EmptyTokens(n);
    GatherLess(w.table.events, fd, n, EventTok);
  }

  lemma OneFewer(before: multiset<nat>, after: multiset<nat>, gone: multiset<nat>, f: nat)
    requires after + gone == before && f in gone && before[f] == 1
    ensures after[f] == 0
  {
    assert (after + gone)[f] == before[f];
  }

  /** A waiting fiber loses its only wake-up when its descriptor is closed. */
  lemma CloseLoses(w: World, fd: nat, f: nat)
    requires Inv(w) && fd < |w.table.events|
    requires (w.table.events[fd].read.fiber == Some(f) || w.table.events[fd].write.fiber == Some(f))
    ensures !TokensOk(Tokens(w.(table := DelEvent(w.table, fd))), w.fibers)
  {
    hide TableOk, SlotsOk, TokensOk, HoldersOk, TasksOk, AlarmsOk, FibersOk, Gather, RunnersOk, Tokens, DelEvent;
    var e := w.table.events[fd];
    Occupied(w.table, fd);
    CloseDrops(w, fd);
    assert f in EventTok(e);
    assert f in Tokens(w.(table := DelEvent(w.table, fd))) + EventTok(e);
    TokenMeans(w, f);
    OneFewer(Tokens(w), Tokens(w.(table := DelEvent(w.table, fd))), EventTok(e), f);
    Unpaid(Tokens(w.(table := DelEvent(w.table, fd))), w.fibers, f);
  }

  /** Closing a descriptor is harmless exactly when no fiber waits on it. */
  lemma CloseExactly(w: World, fd: nat)
    requires Inv(w)
    ensures Inv(w.(table := DelEvent(w.table, fd))) <==> Enabled(w, Close(fd))
  {
    hide TableOk, SlotsOk, TokensOk, HoldersOk, TasksOk, AlarmsOk, FibersOk, Gather, RunnersOk, Tokens, DelEvent;
    if Enabled(w, Close(fd)) {
      CloseKeeps(w, fd);
    } else {
      var e := w.table.events[fd];
      CloseLoses(w, fd, if e.read.fiber.Some? then e.read.fiber.value else e.write.fiber.value);
    }
  }

  lemma Occupied(tb: Table, fd: nat)
    requires TableOk(tb) && fd < |tb.events| && (tb.events[fd].read.fiber.Some? || tb.events[fd].write.fiber.Some?)
    ensures tb.events[fd].mask != NONE
  {
    assert EntryOk(tb.events[fd], fd);
  }

  lemma Unpaid(tokens: multiset<nat>, fibers: seq<Fiber>, f: nat)
    requires f < |fibers| && tokens[f] != Owed(fibers[f])
    ensures !TokensOk(tokens, fibers)
  {
  }

  /** Registering is safe exactly on a free slot: on an occupied one `addEvent` returns without a word, and the
      fiber that then yields is never woken. */
  lemma RegisterExactly(w: World, t: nat, fd: nat, dir: Dir)
    requires Inv(w) && Free(w, t) && fd < |Grown(w.table.events, fd)|
    ensures Inv(Registered(w, t, fd, dir)) <==> (fd < |w.table.events| ==> !w.table.events[fd].mask.Has(dir))
  {
    hide TableOk, SlotsOk, TokensOk, HoldersOk, TasksOk, AlarmsOk, FibersOk, Gather, RunnersOk, Grown;
    if fd < |w.table.events| ==> !w.table.events[fd].mask.Has(dir) {
      RegisterKeeps(w, t, fd, dir);
    } else {
      var f := w.workers[t].fiber;
      RunnerExecutes(w, t);
      BigTable(w.table);
      GrowthKeeps(w.table.events, fd);
      assert Grown(w.table.events, fd)[fd] == w.table.events[fd];
      GrownTokens(w.table.events, fd);
      GatherSame(w.fibers, f, FiberOn(w, t).(parking := true), FiberTok);
      var v := Registered(w, t, fd, dir);
      assert Tokens(v) == Tokens(w);
      PaidUp(Tokens(w), w.fibers, f);
      Unpaid(Tokens(v), v.fibers, f);
    }
  }

  lemma PaidUp(tokens: multiset<nat>, fibers: seq<Fiber>, f: nat)
    requires TokensOk(tokens, fibers) && f < |fibers|
    ensures tokens[f] == Owed(fibers[f])
  {
  }
}
