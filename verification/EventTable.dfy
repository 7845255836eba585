/** The epoll event table of the I/O manager: who waits for which direction of which descriptor, what the kernel
    watches, and which tasks a triggered event appends to the run queue. */
module EventTables {
  import opened Bytes

  /** `EPOLLIN` and `EPOLLOUT` */
  datatype Dir = In | Out

  /** What a callback does: a user's function, the `addTask` bound by `sleep`, or the timeout of `io_func`. */
  datatype Job = User(id: nat) | Wake(fiber: nat) | CancelIo(fd: nat, dir: Dir)

  datatype Body = OfFiber(fiber: nat) | OfJob(job: Job)

  /** `Scheduler::Task`; `thread` is the worker that has to run it, if any. */
  datatype Task = Task(body: Body, thread: Option<nat>)

  datatype Ctx = Ctx(cb: Option<Job>, fiber: Option<nat>)

  const EMPTY := Ctx(None, None)

  /** The two bits of an event mask that matter here. */
  datatype Mask = Mask(input: bool, output: bool) {
    predicate Has(dir: Dir) { if dir.In? then input else output }
    function Plus(dir: Dir): Mask { if dir.In? then this.(input := true) else this.(output := true) }
    function Minus(dir: Dir): Mask { if dir.In? then this.(input := false) else this.(output := false) }
    function Without(other: Mask): Mask { Mask(input && !other.input, output && !other.output) }
    predicate Meets(other: Mask) { (input && other.input) || (output && other.output) }
    predicate Within(other: Mask) { (input ==> other.input) && (output ==> other.output) }
  }

  const NONE := Mask(false, false)

  datatype Event = Event(fd: nat, mask: Mask, read: Ctx, write: Ctx)

  /** The kernel's interest list: the directions watched for each registered descriptor. */
  type Kernel = map<nat, Mask>

  datatype Table = Table(events: seq<Event>, kernel: Kernel, queue: seq<Task>, accepted: multiset<Task>)

  function CtxOf(e: Event, dir: Dir): Ctx { if dir.In? then e.read else e.write }

  function WithCtx(e: Event, dir: Dir, ctx: Ctx): Event { if dir.In? then e.(read := ctx) else e.(write := ctx) }

  // ----- epoll_ctl -----

  datatype Op = Add | Mod | Del

  /** `epoll_ctl`, which refuses to add a registered descriptor, and to change or delete an unregistered one. */
  function EpollCtl(k: Kernel, op: Op, fd: nat, mask: Mask): Option<Kernel> {
    match op
    case Add => if fd in k then None else Some(k[fd := mask])
    case Mod => if fd in k then Some(k[fd := mask]) else None
    case Del => if fd in k then Some(k - {fd}) else None
  }

  function Applied(k: Kernel, op: Op, fd: nat, mask: Mask): Kernel {
    match EpollCtl(k, op, fd, mask)
    case None => k
    case Some(n) => n
  }

  // ----- Event -----

  /** What `triggerEvent` appends: the fiber if there is one, otherwise the callback. */
  function Woken(ctx: Ctx): seq<Task> {
    if ctx.fiber.Some? then [Task(OfFiber(ctx.fiber.value), None)]
    else if ctx.cb.Some? then [Task(OfJob(ctx.cb.value), None)]
    else []
  }

  function AddTasks(tb: Table, tasks: seq<Task>): Table {
    tb.(queue := tb.queue + tasks, accepted := tb.accepted + multiset(tasks))
  }

  /** `triggerEvent` */
  function Trigger(tb: Table, fd: nat, dir: Dir): Table
    requires fd < |tb.events|
  {
    var e := tb.events[fd];
    AddTasks(tb, Woken(CtxOf(e, dir))).(events := tb.events[fd := WithCtx(e.(mask := e.mask.Minus(dir)), dir, EMPTY)])
  }

  // ----- IOManager -----

  function Fresh(from: nat, to: nat): seq<Event>
    requires from <= to
  {
    seq(to - from, i requires 0 <= i < to - from => Event(from + i, NONE, EMPTY, EMPTY))
  }

  /** `ctxResize`; a smaller size would cut entries off. */
  function Resize(events: seq<Event>, size: nat): seq<Event> {
    if size <= |events| then events[..size] else events + Fresh(|events|, size)
  }

  /** The table that `addEvent` works on: it grows when `fd` is past four fifths of it. */
  function Grown(events: seq<Event>, fd: nat): seq<Event> {
    if 5 * fd >= 4 * |events| then Resize(events, 3 * fd / 2) else events
  }

  /** `addEvent`, on a table that has an entry for `fd` */
  function AddEvent(tb: Table, fd: nat, dir: Dir, ctx: Ctx): Table
    requires fd < |Grown(tb.events, fd)|
  {
    var grown := tb.(events := Grown(tb.events, fd));
    var e := grown.events[fd];
    if e.mask.Has(dir) then grown
    else match EpollCtl(tb.kernel, if e.mask == NONE then Add else Mod, fd, e.mask.Plus(dir))
      case None => grown
      case Some(k) =>
        // a callback fills `cb`, a fiber fills `fiber`; the other half stays as it is
        var was := CtxOf(e, dir);
        var now := if ctx.cb.Some? then was.(cb := ctx.cb) else was.(fiber := ctx.fiber);
        grown.(kernel := k, events := grown.events[fd := WithCtx(e.(mask := e.mask.Plus(dir)), dir, now)])
  }

  /** `cancelEvent`; the kernel is told the mask that still includes the cancelled direction. */
  function CancelEvent(tb: Table, fd: nat, dir: Dir): Table {
    if fd >= |tb.events| || !tb.events[fd].mask.Has(dir) then tb
    else
      var e := tb.events[fd];
      Trigger(tb.(kernel := Applied(tb.kernel, if e.mask.Minus(dir) == NONE then Del else Mod, fd, e.mask)), fd, dir)
  }

  /** `delEvent`: the waiters are dropped. */
  function DelEvent(tb: Table, fd: nat): Table {
    if fd >= |tb.events| || tb.events[fd].mask == NONE then tb
    else
      tb.(kernel := Applied(tb.kernel, Del, fd, NONE),
          events := tb.events[fd := tb.events[fd].(mask := NONE, read := EMPTY, write := EMPTY)])
  }

  function TriggerIf(tb: Table, fd: nat, dir: Dir, ready: Mask): Table
    requires fd < |tb.events|
  {
    if ready.Has(dir) then Trigger(tb, fd, dir) else tb
  }

  /** The body of the `idle` loop for one reported event. */
  function HandleEvent(tb: Table, fd: nat, ready: Mask): Table
    requires fd < |tb.events|
  {
    var e := tb.events[fd];
    if !e.mask.Meets(ready) then tb
    else
      var left := e.mask.Without(ready);
      match EpollCtl(tb.kernel, if left == NONE then Del else Mod, fd, left)
      case None => tb
      case Some(k) => TriggerIf(TriggerIf(tb.(kernel := k), fd, In, ready), fd, Out, ready)
  }

  // ----- What every operation keeps -----

  /** A direction bit is set exactly when its slot holds a callback or a fiber, and then not both. */
  predicate SlotOk(e: Event, dir: Dir) {
    var ctx := CtxOf(e, dir);
    if e.mask.Has(dir) then ctx.cb.Some? != ctx.fiber.Some? else ctx == EMPTY
  }

  predicate EntryOk(e: Event, fd: nat) { e.fd == fd && SlotOk(e, In) && SlotOk(e, Out) }

  predicate KernelOk(k: Kernel, e: Event, fd: nat) {
    if e.mask == NONE then fd !in k else fd in k && e.mask.Within(k[fd])
  }

  ghost predicate TableOk(tb: Table) {
    && 128 <= |tb.events|
    && (forall fd :: 0 <= fd < |tb.events| ==> EntryOk(tb.events[fd], fd) && KernelOk(tb.kernel, tb.events[fd], fd))
    && (forall fd :: fd in tb.kernel ==> fd < |tb.events|)
  }

  /** Growth keeps every entry, adds empty ones, and puts `fd` in range. */
  lemma GrowthKeeps(events: seq<Event>, fd: nat)
    requires 128 <= |events|
    ensures fd < |Grown(events, fd)| && events <= Grown(events, fd)
    ensures forall i :: |events| <= i < |Grown(events, fd)| ==> Grown(events, fd)[i] == Event(i, NONE, EMPTY, EMPTY)
  {
    if 5 * fd >= 4 * |events| {
      assert 3 * fd / 2 > |events|;
    }
  }

  lemma GrownOk(tb: Table, fd: nat)
    requires TableOk(tb)
    ensures fd < |Grown(tb.events, fd)| && TableOk(tb.(events := Grown(tb.events, fd)))
  {
    hide Grown;
    GrowthKeeps(tb.events, fd);
    var g := Grown(tb.events, fd);
    forall i | 0 <= i < |g| ensures EntryOk(g[i], i) && KernelOk(tb.kernel, g[i], i) {
      if i < |tb.events| { assert g[i] == tb.events[i]; }
    }
  }

  lemma EntryChanged(tb: Table, fd: nat, e: Event, k: Kernel)
    requires TableOk(tb) && fd < |tb.events| && EntryOk(e, fd) && KernelOk(k, e, fd)
    requires forall i :: i != fd ==> (i in k <==> i in tb.kernel) && (i in k ==> k[i] == tb.kernel[i])
    ensures TableOk(tb.(events := tb.events[fd := e], kernel := k))
  {
  }

  /** `addEvent` under the invariant: the kernel accepts the operation and the waiter is recorded. */
  lemma AddEventKeeps(tb: Table, fd: nat, dir: Dir, ctx: Ctx)
    requires TableOk(tb) && ctx.cb.Some? != ctx.fiber.Some?
    ensures fd < |Grown(tb.events, fd)| && TableOk(AddEvent(tb, fd, dir, ctx))
    ensures AddEvent(tb, fd, dir, ctx).queue == tb.queue && AddEvent(tb, fd, dir, ctx).accepted == tb.accepted
    ensures
      var g := Grown(tb.events, fd);
      AddEvent(tb, fd, dir, ctx).events
        == if g[fd].mask.Has(dir) then g else g[fd := WithCtx(g[fd].(mask := g[fd].mask.Plus(dir)), dir, ctx)]
  {
    hide Grown;
    GrownOk(tb, fd);
    var g := tb.(events := Grown(tb.events, fd));
    var e := g.events[fd];
    assert EntryOk(e, fd) && KernelOk(tb.kernel, e, fd);
    if !e.mask.Has(dir) {
      var k := tb.kernel[fd := e.mask.Plus(dir)];
      EntryChanged(g, fd, WithCtx(e.(mask := e.mask.Plus(dir)), dir, ctx), k);
    }
  }

  /** One trigger empties the slot. */
  lemma TriggerOk(e: Event, fd: nat, dir: Dir)
    requires EntryOk(e, fd)
    ensures EntryOk(WithCtx(e.(mask := e.mask.Minus(dir)), dir, EMPTY), fd)
  {
  }

  lemma CancelEventKeeps(tb: Table, fd: nat, dir: Dir)
    requires TableOk(tb)
    ensures TableOk(CancelEvent(tb, fd, dir))
  {
    if fd < |tb.events| && tb.events[fd].mask.Has(dir) {
      var e := tb.events[fd];
      assert EntryOk(e, fd) && KernelOk(tb.kernel, e, fd);
      TriggerOk(e, fd, dir);
      var k := Applied(tb.kernel, if e.mask.Minus(dir) == NONE then Del else Mod, fd, e.mask);
      EntryChanged(tb, fd, WithCtx(e.(mask := e.mask.Minus(dir)), dir, EMPTY), k);
    }
  }

  lemma DelEventKeeps(tb: Table, fd: nat)
    requires TableOk(tb)
    ensures TableOk(DelEvent(tb, fd))
  {
    if fd < |tb.events| && tb.events[fd].mask != NONE {
      assert EntryOk(tb.events[fd], fd) && KernelOk(tb.kernel, tb.events[fd], fd);
      EntryChanged(tb, fd, Event(fd, NONE, EMPTY, EMPTY), tb.kernel - {fd});
    }
  }

  /** The entry after both triggers of a reported event. */
  function Left(e: Event, ready: Mask): Event {
    Event(e.fd, e.mask.Without(ready), if ready.input then EMPTY else e.read, if ready.output then EMPTY else e.write)
  }

  lemma LeftOk(e: Event, fd: nat, ready: Mask)
    requires EntryOk(e, fd)
    ensures EntryOk(Left(e, ready), fd)
  {
  }

  /** The tasks that a reported event appends, readers first. */
  function WokenBy(e: Event, ready: Mask): seq<Task> {
    WokenIf(e, In, ready) + WokenIf(e, Out, ready)
  }

  /** A reported event wakes exactly the waiters of the ready directions; the others keep waiting, and the kernel
      keeps watching for them. Reports for nobody, and stale ones, change nothing. */
  lemma HandleEventSays(tb: Table, fd: nat, ready: Mask)
    requires TableOk(tb) && fd < |tb.events|
    ensures
      var e, t := tb.events[fd], HandleEvent(tb, fd, ready);
      TableOk(t) && t.events == tb.events[fd := Left(e, ready)]
      && t.queue == tb.queue + WokenBy(e, ready) && t.accepted == tb.accepted + multiset(WokenBy(e, ready))
  {
    hide Woken, WokenBy, TriggerIf;
    var e := tb.events[fd];
    assert EntryOk(e, fd) && KernelOk(tb.kernel, e, fd);
    LeftOk(e, fd, ready);
    if !e.mask.Meets(ready) {
      NothingReady(e, ready);
    } else {
      var left := e.mask.Without(ready);
      var k := if left == NONE then tb.kernel - {fd} else tb.kernel[fd := left];
      EntryChanged(tb, fd, Left(e, ready), k);
      BothTriggers(tb.(kernel := k), fd, ready);
    }
  }

  lemma NothingReady(e: Event, ready: Mask)
    requires EntryOk(e, e.fd) && !e.mask.Meets(ready)
    ensures Left(e, ready) == e && WokenBy(e, ready) == []
  {
  }

  /** What a direction's slot contributes, if the direction is ready. */
  function WokenIf(e: Event, dir: Dir, ready: Mask): seq<Task> {
    if ready.Has(dir) then Woken(CtxOf(e, dir)) else []
  }

  lemma TriggerIfSays(tb: Table, fd: nat, dir: Dir, ready: Mask)
    requires fd < |tb.events|
    ensures
      var e, t := tb.events[fd], TriggerIf(tb, fd, dir, ready);
      t == AddTasks(tb, WokenIf(e, dir, ready)).(
        events := tb.events[fd := if ready.Has(dir) then WithCtx(e.(mask := e.mask.Minus(dir)), dir, EMPTY) else e])
  {
    hide Woken, WithCtx;
    assert tb.queue + [] == tb.queue && tb.accepted + multiset([]) == tb.accepted;
  }

  lemma BothTriggers(tb: Table, fd: nat, ready: Mask)
    requires fd < |tb.events|
    ensures
      var e, t := tb.events[fd], TriggerIf(TriggerIf(tb, fd, In, ready), fd, Out, ready);
      t.events == tb.events[fd := Left(e, ready)]
      && t.kernel == tb.kernel && t.queue == tb.queue + WokenBy(e, ready)
      && t.accepted == tb.accepted + multiset(WokenBy(e, ready))
  {
    hide Woken, TriggerIf;
    var e := tb.events[fd];
    var a := TriggerIf(tb, fd, In, ready);
    TriggerIfSays(tb, fd, In, ready);
    TriggerIfSays(a, fd, Out, ready);
    var x, y := WokenIf(e, In, ready), WokenIf(e, Out, ready);
    assert multiset(x + y) == multiset(x) + multiset(y);
    assert tb.queue + x + y == tb.queue + (x + y);
  }
}
