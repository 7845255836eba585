/** Runs of the timer wheel against a plain list of countdowns. */
module TimerRuns {
  import opened Timers

  datatype Op = Add(timing: nat, job: nat, recurring: bool) | Delete(timer: Timer) | Tick(now: nat, later: nat)

  /** A deletion is given a one-shot timer, by its address. */
  predicate Allowed(w: Wheel, op: Op) {
    w.Ok() && (op.Delete? ==> !op.timer.recurring && op.timer.slot < w.Size() && Known(w, op.timer))
  }

  /** `t` and the entry at its address are one and the same timer. */
  predicate Known(w: Wheel, t: Timer) {
    forall s, i :: 0 <= s < |w.slots| && 0 <= i < |w.slots[s]| && w.slots[s][i].id == t.id ==>
      w.slots[s][i].slot == t.slot && !w.slots[s][i].recurring
  }

  function Step(w: Wheel, op: Op): Wheel
    requires Allowed(w, op)
  {
    match op
    case Add(timing, job, recurring) => Added(w, timing, job, recurring)
    case Delete(t) => Deleted(w, t)
    case Tick(now, later) => if Due(w, now) then Turned(w, later) else w
  }

  predicate Runs(w: Wheel, ops: seq<Op>)
    decreases |ops|
  {
    w.Ok() && (ops == [] || (Allowed(w, ops[0]) && Runs(Step(w, ops[0]), ops[1..])))
  }

  predicate Effective(w: Wheel, op: Op) { op.Tick? && Due(w, op.now) }

  function After(w: Wheel, ops: seq<Op>): Wheel
    requires Runs(w, ops)
    decreases |ops|
  {
    if ops == [] then w else After(Step(w, ops[0]), ops[1..])
  }

  /** The timers fired by each effective tick, in order. */
  function History(w: Wheel, ops: seq<Op>): seq<seq<Timer>>
    requires Runs(w, ops)
    decreases |ops|
  {
    if ops == [] then []
    else (if Effective(w, ops[0]) then [Drained(w.slots[w.cur])] else []) + History(Step(w, ops[0]), ops[1..])
  }

  // ----- Distances -----

  /** How many effective ticks pass before the one that visits slot `s`. */
  function Dist(w: Wheel, s: nat): (d: nat)
    requires w.Ok() && s < w.Size()
    ensures d < w.Size()
  {
    if s >= w.cur then s - w.cur else s + w.Size() - w.cur
  }

  lemma SmallMod(a: nat, n: nat)
    requires 0 < n && a < 2 * n
    ensures a % n == if a < n then a else a - n
  {
  }

  lemma PlaceDist(w: Wheel, timing: nat)
    requires w.Ok()
    ensures Dist(w, w.Place(timing)) == w.Ticks(timing) % w.Size()
  {
    var m := w.Ticks(timing) % w.Size();
    SmallMod(w.cur + m, w.Size());
  }

  lemma NextDist(w: Wheel, v: Wheel, s: nat)
    requires w.Ok() && v.Ok() && v.Size() == w.Size() && v.cur == (w.cur + 1) % w.Size() && s < w.Size()
    ensures Dist(v, s) == if Dist(w, s) == 0 then w.Size() - 1 else Dist(w, s) - 1
  {
    SmallMod(w.cur + 1, w.Size());
  }

  // ----- The plain list -----

  /** A timer and the number of effective ticks still to pass before the one that fires it. */
  datatype Pending = Pending(timer: Timer, left: nat)

  function At(l: seq<Pending>, d: nat): seq<Timer> {
    if l == [] then [] else (if l[0].left == d then [l[0].timer] else []) + At(l[1..], d)
  }

  /** The countdowns that have not run out, one lower. */
  function Lowered(l: seq<Pending>): seq<Pending> {
    if l == [] then [] else (if l[0].left > 0 then [Pending(l[0].timer, l[0].left - 1)] else []) + Lowered(l[1..])
  }

  function Dropped(l: seq<Pending>, id: nat): seq<Pending> {
    if l == [] then [] else (if l[0].timer.id == id then [] else [l[0]]) + Dropped(l[1..], id)
  }

  /** The countdown of a recurring timer that has just fired: its interval, and a whole turn if that is shorter
      than one tick. */
  function Again(w: Wheel, t: Timer): nat
    requires w.Ok()
  {
    var m := w.Ticks(t.interval) % w.Size();
    if m == 0 then w.Size() - 1 else m - 1
  }

  function Restarted(w: Wheel, list: seq<Timer>): seq<Pending>
    requires w.Ok()
  {
    if list == [] then []
    else (if list[0].recurring then [Pending(list[0], Again(w, list[0]))] else []) + Restarted(w, list[1..])
  }

  function ListStep(w: Wheel, l: seq<Pending>, op: Op): seq<Pending>
    requires Allowed(w, op)
  {
    match op
    case Add(timing, job, recurring) =>
      l + [Pending(NewTimer(w, timing, job, recurring).(round := 0), w.Ticks(timing) % w.Size())]
    case Delete(t) => Dropped(l, t.id)
    case Tick(now, _) => if Due(w, now) then Lowered(l) + Restarted(w, At(l, 0)) else l
  }

  /** What the list of countdowns fires. */
  function ListHistory(w: Wheel, l: seq<Pending>, ops: seq<Op>): seq<seq<Timer>>
    requires Runs(w, ops)
    decreases |ops|
  {
    if ops == [] then []
    else
      (if Effective(w, ops[0]) then [At(l, 0)] else [])
      + ListHistory(Step(w, ops[0]), ListStep(w, l, ops[0]), ops[1..])
  }

  // ----- The wheel is the list -----

  predicate SlotsNamed(w: Wheel) {
    forall s, i :: 0 <= s < |w.slots| && 0 <= i < |w.slots[s]| && !w.slots[s][i].recurring ==> w.slots[s][i].slot == s
  }

  predicate Sim(w: Wheel, l: seq<Pending>) {
    && w.Ok() && SlotsNamed(w)
    && (forall s :: 0 <= s < |w.slots| ==> Drained(w.slots[s]) == At(l, Dist(w, s)))
    && (forall i :: 0 <= i < |l| ==> l[i].left < w.Size())
  }

  lemma {:induction false} AtConcat(a: seq<Pending>, b: seq<Pending>, d: nat)
    ensures At(a + b, d) == At(a, d) + At(b, d)
    decreases |a|
  {
    if a == [] {
      assert a + b == b;
    } else {
      assert (a + b)[1..] == a[1..] + b;
      AtConcat(a[1..], b, d);
      var first := if a[0].left == d then [a[0].timer] else [];
      assert first + At(a[1..], d) + At(b, d) == first + (At(a[1..], d) + At(b, d));
    }
  }

  lemma AtOne(p: Pending, d: nat)
    ensures At([p], d) == if p.left == d then [p.timer] else []
  {
    assert [p][1..] == [];
  }

  lemma DrainedConcat(a: seq<Timer>, b: seq<Timer>)
    ensures Drained(a + b) == Drained(a) + Drained(b)
  {
  }

  lemma AddSim(w: Wheel, l: seq<Pending>, timing: nat, job: nat, recurring: bool)
    requires Sim(w, l)
    ensures Sim(Added(w, timing, job, recurring), ListStep(w, l, Add(timing, job, recurring)))
  {
    hide At, Drained;
    var v := Added(w, timing, job, recurring);
    var t, p := NewTimer(w, timing, job, recurring), w.Place(timing);
    var pend := Pending(t.(round := 0), w.Ticks(timing) % w.Size());
    PlaceDist(w, timing);
    OneDrained(t);
    forall s | 0 <= s < |w.slots| ensures Drained(v.slots[s]) == At(l + [pend], Dist(v, s)) {
      AtConcat(l, [pend], Dist(w, s));
      AtOne(pend, Dist(w, s));
      DrainedConcat(w.slots[s], [t]);
      if s != p { DistApart(w, s, p); }
    }
  }

  lemma OneDrained(t: Timer)
    ensures Drained([t]) == [t.(round := 0)]
  {
  }

  lemma DistApart(w: Wheel, s: nat, p: nat)
    requires w.Ok() && s < w.Size() && p < w.Size() && s != p
    ensures Dist(w, s) != Dist(w, p)
  {
  }

  // ----- Deletion -----

  lemma {:induction false} DropAt(l: seq<Pending>, id: nat, d: nat)
    ensures At(Dropped(l, id), d) == Without(At(l, d), id)
    decreases |l|
  {
    if l != [] {
      DropAt(l[1..], id, d);
      var rest := Dropped(l[1..], id);
      var p := l[0];
      if p.timer.id != id {
        AtConcat([p], rest, d);
        AtOne(p, d);
      } else {
        assert [] + rest == rest;
      }
      WithoutConcat(if p.left == d then [p.timer] else [], At(l[1..], d), id);
      WithoutOne(p.timer, id);
    }
  }

  lemma {:induction false} WithoutConcat(a: seq<Timer>, b: seq<Timer>, id: nat)
    ensures Without(a + b, id) == Without(a, id) + Without(b, id)
    decreases |a|
  {
    if a == [] {
      assert a + b == b;
    } else {
      assert (a + b)[1..] == a[1..] + b;
      WithoutConcat(a[1..], b, id);
    }
  }

  lemma WithoutOne(t: Timer, id: nat)
    ensures Without([t], id) == if t.id == id then [] else [t]
  {
    assert [t][1..] == [];
  }

  lemma {:induction false} DrainedWithout(list: seq<Timer>, id: nat)
    ensures Drained(Without(list, id)) == Without(Drained(list), id)
    decreases |list|
  {
    if list != [] {
      DrainedFirst(list);
      DrainedWithout(list[1..], id);
      var rest := Without(list[1..], id);
      if list[0].id != id {
        DrainedConcat([list[0]], rest);
        OneDrained(list[0]);
      } else {
        assert [] + rest == rest;
      }
    }
  }

  lemma {:induction false} WithoutAbsent(list: seq<Timer>, id: nat)
    requires forall i :: 0 <= i < |list| ==> list[i].id != id
    ensures Without(list, id) == list
    decreases |list|
  {
    if list != [] { WithoutAbsent(list[1..], id); }
  }

  lemma {:induction false} DropBounds(l: seq<Pending>, id: nat, n: nat)
    requires forall i :: 0 <= i < |l| ==> l[i].left < n
    ensures forall i :: 0 <= i < |Dropped(l, id)| ==> Dropped(l, id)[i].left < n
    decreases |l|
  {
    if l != [] { DropBounds(l[1..], id, n); }
  }

  lemma DeleteSim(w: Wheel, l: seq<Pending>, t: Timer)
    requires Sim(w, l) && Allowed(w, Delete(t))
    ensures Sim(Deleted(w, t), Dropped(l, t.id))
  {
    hide At, Drained, Without, Dropped;
    var v := Deleted(w, t);
    WithoutKeeps(w.slots[t.slot], t.id);
    DropBounds(l, t.id, w.Size());
    forall s | 0 <= s < |w.slots| ensures Drained(v.slots[s]) == At(Dropped(l, t.id), Dist(v, s)) {
      DropAt(l, t.id, Dist(w, s));
      DrainedWithout(w.slots[s], t.id);
      if s != t.slot {
        assert forall i :: 0 <= i < |w.slots[s]| ==> w.slots[s][i].id != t.id;
        WithoutAbsent(w.slots[s], t.id);
      }
    }
    forall s, i | 0 <= s < |v.slots| && 0 <= i < |v.slots[s]| && !v.slots[s][i].recurring
      ensures v.slots[s][i].slot == s
    {
      assert v.slots[s][i] in w.slots[s];
    }
    assert v.Ok() by {
      forall s, i | 0 <= s < |v.slots| && 0 <= i < |v.slots[s]| ensures v.slots[s][i].id < v.next {
        assert v.slots[s][i] in w.slots[s];
      }
    }
  }

  // ----- An effective tick -----

  lemma {:induction false} LoweredAt(l: seq<Pending>, d: nat)
    ensures At(Lowered(l), d) == At(l, d + 1)
    decreases |l|
  {
    if l != [] {
      LoweredAt(l[1..], d);
      var rest := Lowered(l[1..]);
      if l[0].left > 0 {
        AtConcat([Pending(l[0].timer, l[0].left - 1)], rest, d);
        AtOne(Pending(l[0].timer, l[0].left - 1), d);
      } else {
        assert [] + rest == rest;
      }
    }
  }

  lemma {:induction false} NoneAt(l: seq<Pending>, d: nat)
    requires forall i :: 0 <= i < |l| ==> l[i].left < d
    ensures At(l, d) == []
    decreases |l|
  {
    if l != [] { NoneAt(l[1..], d); }
  }

  /** The recurring timers of a list that go into slot `s`. */
  function Placed(w: Wheel, list: seq<Timer>, s: nat): seq<Timer>
    requires w.Ok()
  {
    if list == [] then []
    else
      (if list[0].recurring && w.Place(list[0].interval) == s then [list[0].(round := 0)] else [])
      + Placed(w, list[1..], s)
  }

  lemma {:induction false} ReinsertedAt(w: Wheel, slots: seq<seq<Timer>>, list: seq<Timer>, s: nat)
    requires w.Ok() && |slots| == w.Size() && s < w.Size()
    ensures Drained(Reinserted(w, slots, Recurring(list))[s]) == Drained(slots[s]) + Placed(w, list, s)
    decreases |list|
  {
    hide Drained;
    if list != [] {
      var t, rest := list[0], Recurring(list[1..]);
      if t.recurring {
        assert ([t] + rest)[1..] == rest;
        var next := Append(slots, w.Place(t.interval), Rewound(w, t));
        ReinsertedAt(w, next, list[1..], s);
        DrainedConcat(slots[s], [Rewound(w, t)]);
        OneDrained(Rewound(w, t));
      } else {
        assert [] + rest == rest;
        ReinsertedAt(w, slots, list[1..], s);
      }
    }
  }

  /** The restarted countdowns are the reinserted timers. */
  lemma {:induction false} RestartedAt(w: Wheel, v: Wheel, list: seq<Timer>, s: nat)
    requires w.Ok() && v.Ok() && v.Size() == w.Size() && v.cur == (w.cur + 1) % w.Size() && s < w.Size()
    requires forall i :: 0 <= i < |list| ==> list[i].round == 0
    ensures At(Restarted(w, list), Dist(v, s)) == Placed(w, list, s)
    decreases |list|
  {
    hide Dist;
    if list != [] {
      var t, rest := list[0], Restarted(w, list[1..]);
      RestartedAt(w, v, list[1..], s);
      if t.recurring {
        var p := Pending(t, Again(w, t));
        AtConcat([p], rest, Dist(v, s));
        AtOne(p, Dist(v, s));
        PlaceDist(w, t.interval);
        NextDist(w, v, w.Place(t.interval));
        if s != w.Place(t.interval) { DistApart(v, s, w.Place(t.interval)); }
        assert t.(round := 0) == t;
      } else {
        assert [] + rest == rest;
      }
    }
  }

  lemma {:induction false} RestartBounds(w: Wheel, list: seq<Timer>)
    requires w.Ok()
    ensures forall i :: 0 <= i < |Restarted(w, list)| ==> Restarted(w, list)[i].left < w.Size()
    decreases |list|
  {
    if list != [] {
      RestartBounds(w, list[1..]);
      assert w.Ticks(list[0].interval) % w.Size() < w.Size();
    }
  }

  lemma {:induction false} LowerBounds(l: seq<Pending>, n: nat)
    requires forall i :: 0 <= i < |l| ==> l[i].left < n
    ensures forall i :: 0 <= i < |Lowered(l)| ==> Lowered(l)[i].left < n
    decreases |l|
  {
    if l != [] { LowerBounds(l[1..], n); }
  }

  /** Reinsertion appends recurring timers of known address and keeps what is there. */
  lemma {:induction false} ReinsertedOk(w: Wheel, slots: seq<seq<Timer>>, list: seq<Timer>)
    requires w.Ok() && |slots| == w.Size() && w.(slots := slots).Ok() && SlotsNamed(w.(slots := slots))
    requires forall i :: 0 <= i < |list| ==> list[i].id < w.next && list[i].recurring
    ensures w.(slots := Reinserted(w, slots, list)).Ok() && SlotsNamed(w.(slots := Reinserted(w, slots, list)))
    decreases |list|
  {
    if list != [] { ReinsertedOk(w, Append(slots, w.Place(list[0].interval), Rewound(w, list[0])), list[1..]); }
  }

  lemma {:induction false} RecurringOnly(list: seq<Timer>, n: nat)
    requires forall i :: 0 <= i < |list| ==> list[i].id < n
    ensures forall i :: 0 <= i < |Recurring(list)| ==> Recurring(list)[i].recurring && Recurring(list)[i].id < n
    decreases |list|
  {
    if list != [] { RecurringOnly(list[1..], n); }
  }

  lemma TurnedOk(w: Wheel, later: nat)
    requires w.Ok() && SlotsNamed(w)
    ensures Turned(w, later).Ok() && SlotsNamed(Turned(w, later)) && Turned(w, later).Size() == w.Size()
  {
    hide Reinserted, Recurring;
    var list := Drained(w.slots[w.cur]);
    RecurringOnly(list, w.next);
    ReinsertedOk(w, w.slots[w.cur := []], Recurring(list));
  }

  lemma TickSim(w: Wheel, l: seq<Pending>, later: nat)
    requires Sim(w, l)
    ensures Sim(Turned(w, later), Lowered(l) + Restarted(w, At(l, 0))) && Drained(w.slots[w.cur]) == At(l, 0)
  {
    hide At, Lowered, Restarted, Reinserted, Recurring, SlotsNamed;
    var v, fired := Turned(w, later), At(l, 0);
    assert Dist(w, w.cur) == 0 && Drained(w.slots[w.cur]) == fired;
    TurnedOk(w, later);
    LowerBounds(l, w.Size());
    RestartBounds(w, fired);
    forall s | 0 <= s < |v.slots| ensures Drained(v.slots[s]) == At(Lowered(l) + Restarted(w, fired), Dist(v, s)) {
      AtConcat(Lowered(l), Restarted(w, fired), Dist(v, s));
      RestartedAt(w, v, fired, s);
      ReinsertedAt(w, w.slots[w.cur := []], fired, s);
      LoweredAt(l, Dist(v, s));
      NextDist(w, v, s);
      if s == w.cur {
        NoneAt(l, w.Size());
        NothingDrained();
      }
    }
  }

  lemma StepSim(w: Wheel, l: seq<Pending>, op: Op)
    requires Sim(w, l) && Allowed(w, op)
    ensures Sim(Step(w, op), ListStep(w, l, op))
    ensures Effective(w, op) ==> Drained(w.slots[w.cur]) == At(l, 0)
  {
    hide Sim, Turned, Lowered, Restarted, Dropped, Added, Deleted;
    match op
    case Add(timing, job, recurring) => AddSim(w, l, timing, job, recurring);
    case Delete(t) => DeleteSim(w, l, t);
    case Tick(now, later) => TickSim(w, l, later);
  }

  lemma {:induction false} WheelFollowsList(w: Wheel, l: seq<Pending>, ops: seq<Op>)
    requires Sim(w, l) && Runs(w, ops)
    ensures History(w, ops) == ListHistory(w, l, ops)
    decreases |ops|
  {
    hide Sim, Step, ListStep, At, Drained;
    if ops != [] {
      StepSim(w, l, ops[0]);
      WheelFollowsList(Step(w, ops[0]), ListStep(w, l, ops[0]), ops[1..]);
    }
  }

  /** A new manager has nothing to count down. */
  lemma NothingPending(slotNum: nat, tickTime: nat, now: nat)
    requires 0 < slotNum && 0 < tickTime
    ensures Sim(NewWheel(slotNum, tickTime, now), [])
  {
  }

  /** Every run of a new wheel fires what an empty list of countdowns fires, in the same ticks and in the same order.
      The countdown of a new timer is its number of ticks modulo the number of slots: rounds do not count. */
  lemma WheelIsCountdown(slotNum: nat, tickTime: nat, now: nat, ops: seq<Op>)
    requires 0 < slotNum && 0 < tickTime && Runs(NewWheel(slotNum, tickTime, now), ops)
    ensures
      var w := NewWheel(slotNum, tickTime, now);
      History(w, ops) == ListHistory(w, [], ops)
  {
    hide Sim, Runs, History, ListHistory;
    NothingPending(slotNum, tickTime, now);
    WheelFollowsList(NewWheel(slotNum, tickTime, now), [], ops);
  }

  // ----- One one-shot timer -----

  function Count(list: seq<Timer>, id: nat): nat {
    if list == [] then 0 else (if list[0].id == id then 1 else 0) + Count(list[1..], id)
  }

  predicate OneShot(slots: seq<seq<Timer>>, id: nat) {
    forall s, i :: 0 <= s < |slots| && 0 <= i < |slots[s]| && slots[s][i].id == id ==> !slots[s][i].recurring
  }

  /** The timer is in the wheel once, `d` ticks away, in the slot it names, and does not recur. */
  predicate Located(w: Wheel, t: Timer, d: nat) {
    && w.Ok() && SlotsNamed(w) && t.id < w.next && t.slot < w.Size() && Dist(w, t.slot) == d && OneShot(w.slots, t.id)
    && (forall s :: 0 <= s < |w.slots| ==> Count(w.slots[s], t.id) == if s == t.slot then 1 else 0)
  }

  /** It is nowhere in the wheel, and its address will not be used again. */
  predicate Gone(w: Wheel, t: Timer) {
    w.Ok() && SlotsNamed(w) && t.id < w.next && forall s :: 0 <= s < |w.slots| ==> Count(w.slots[s], t.id) == 0
  }

  lemma {:induction false} CountConcat(a: seq<Timer>, b: seq<Timer>, id: nat)
    ensures Count(a + b, id) == Count(a, id) + Count(b, id)
    decreases |a|
  {
    if a == [] {
      assert a + b == b;
    } else {
      assert (a + b)[1..] == a[1..] + b;
      CountConcat(a[1..], b, id);
    }
  }

  lemma CountOne(t: Timer, id: nat)
    ensures Count([t], id) == if t.id == id then 1 else 0
  {
    assert [t][1..] == [];
  }

  lemma {:induction false} CountDrained(list: seq<Timer>, id: nat)
    ensures Count(Drained(list), id) == Count(list, id)
    decreases |list|
  {
    if list != [] {
      DrainedFirst(list);
      CountConcat([list[0].(round := 0)], Drained(list[1..]), id);
      CountOne(list[0].(round := 0), id);
      CountDrained(list[1..], id);
    }
  }

  lemma {:induction false} CountWithout(list: seq<Timer>, gone: nat, id: nat)
    ensures Count(Without(list, gone), id) == if gone == id then 0 else Count(list, id)
    decreases |list|
  {
    if list != [] {
      CountWithout(list[1..], gone, id);
      var rest := Without(list[1..], gone);
      if list[0].id != gone {
        CountConcat([list[0]], rest, id);
        CountOne(list[0], id);
      } else {
        assert [] + rest == rest;
      }
    }
  }

  lemma {:induction false} CountAbsent(list: seq<Timer>, id: nat)
    requires Count(list, id) == 0
    ensures forall i :: 0 <= i < |list| ==> list[i].id != id
    decreases |list|
  {
    if list != [] { CountAbsent(list[1..], id); }
  }

  lemma {:induction false} CountFresh(list: seq<Timer>, id: nat)
    requires forall i :: 0 <= i < |list| ==> list[i].id != id
    ensures Count(list, id) == 0
    decreases |list|
  {
    if list != [] { CountFresh(list[1..], id); }
  }

  lemma {:induction false} CountReinserted(w: Wheel, slots: seq<seq<Timer>>, list: seq<Timer>, id: nat, s: nat)
    requires w.Ok() && |slots| == w.Size() && s < w.Size() && forall i :: 0 <= i < |list| ==> list[i].id != id
    ensures Count(Reinserted(w, slots, list)[s], id) == Count(slots[s], id)
    decreases |list|
  {
    if list != [] {
      CountConcat(slots[s], [Rewound(w, list[0])], id);
      CountOne(Rewound(w, list[0]), id);
      CountReinserted(w, Append(slots, w.Place(list[0].interval), Rewound(w, list[0])), list[1..], id, s);
    }
  }

  lemma {:induction false} RecurringIds(list: seq<Timer>, id: nat)
    requires forall i :: 0 <= i < |list| ==> list[i].recurring ==> list[i].id != id
    ensures forall i :: 0 <= i < |Recurring(list)| ==> Recurring(list)[i].id != id
    decreases |list|
  {
    if list != [] { RecurringIds(list[1..], id); }
  }

  /** A tick moves every timer that is not in the visited slot one tick nearer, and a one-shot out of the wheel. */
  lemma TurnedCounts(w: Wheel, later: nat, id: nat, s: nat)
    requires w.Ok() && SlotsNamed(w) && s < w.Size()
    requires forall i :: 0 <= i < |w.slots[w.cur]| ==> w.slots[w.cur][i].recurring ==> w.slots[w.cur][i].id != id
    ensures Turned(w, later).Size() == w.Size()
    ensures Count(Turned(w, later).slots[s], id) == if s == w.cur then 0 else Count(w.slots[s], id)
  {
    hide Reinserted, Recurring;
    RecurringIds(Drained(w.slots[w.cur]), id);
    CountReinserted(w, w.slots[w.cur := []], Recurring(Drained(w.slots[w.cur])), id, s);
  }

  predicate Spares(op: Op, t: Timer) { op.Delete? ==> op.timer.id != t.id }

  /** The wheel after a new timer, or after a deletion, in terms of the entries it has. */
  lemma AddCounts(w: Wheel, t: Timer, timing: nat, job: nat, recurring: bool)
    requires w.Ok() && SlotsNamed(w) && t.id < w.next
    ensures
      var v := Added(w, timing, job, recurring);
      v.Ok() && SlotsNamed(v) && (OneShot(w.slots, t.id) ==> OneShot(v.slots, t.id))
      && forall s :: 0 <= s < |w.slots| ==> Count(v.slots[s], t.id) == Count(w.slots[s], t.id)
  {
    var v, n := Added(w, timing, job, recurring), NewTimer(w, timing, job, recurring);
    forall s | 0 <= s < |w.slots| ensures Count(v.slots[s], t.id) == Count(w.slots[s], t.id) {
      CountConcat(w.slots[s], [n], t.id);
      CountOne(n, t.id);
    }
  }

  lemma DeleteCounts(w: Wheel, t: Timer, gone: Timer)
    requires w.Ok() && SlotsNamed(w) && gone.slot < w.Size()
    ensures
      var v := Deleted(w, gone);
      v.Ok() && SlotsNamed(v) && (OneShot(w.slots, t.id) ==> OneShot(v.slots, t.id))
      && forall s :: 0 <= s < |w.slots| ==>
           Count(v.slots[s], t.id) == if s == gone.slot && gone.id == t.id then 0 else Count(w.slots[s], t.id)
  {
    hide Count, Without;
    var v := Deleted(w, gone);
    WithoutKeeps(w.slots[gone.slot], gone.id);
    forall s, i | 0 <= s < |v.slots| && 0 <= i < |v.slots[s]|
      ensures v.slots[s][i].id < w.next && (!v.slots[s][i].recurring ==> v.slots[s][i].slot == s)
      ensures OneShot(w.slots, t.id) && v.slots[s][i].id == t.id ==> !v.slots[s][i].recurring
    {
      assert v.slots[s][i] in w.slots[s];
    }
    forall s | 0 <= s < |w.slots|
      ensures Count(v.slots[s], t.id) == if s == gone.slot && gone.id == t.id then 0 else Count(w.slots[s], t.id)
    {
      CountWithout(w.slots[s], gone.id, t.id);
    }
  }

  lemma {:induction false} ReinsertedOneShot(w: Wheel, slots: seq<seq<Timer>>, list: seq<Timer>, id: nat)
    requires w.Ok() && |slots| == w.Size() && OneShot(slots, id) && forall i :: 0 <= i < |list| ==> list[i].id != id
    ensures OneShot(Reinserted(w, slots, list), id)
    decreases |list|
  {
    if list != [] {
      ReinsertedOneShot(w, Append(slots, w.Place(list[0].interval), Rewound(w, list[0])), list[1..], id);
    }
  }

  lemma TurnedOneShot(w: Wheel, later: nat, id: nat)
    requires w.Ok() && OneShot(w.slots, id)
    ensures Turned(w, later).slots == Reinserted(w, w.slots[w.cur := []], Recurring(Drained(w.slots[w.cur])))
    ensures OneShot(Turned(w, later).slots, id)
  {
    hide Reinserted, Recurring;
    RecurringIds(Drained(w.slots[w.cur]), id);
    ReinsertedOneShot(w, w.slots[w.cur := []], Recurring(Drained(w.slots[w.cur])), id);
  }

  /** A timer that is gone stays gone, whatever happens. */
  lemma GoneStays(w: Wheel, t: Timer, op: Op)
    requires Gone(w, t) && Allowed(w, op)
    ensures Gone(Step(w, op), t)
    ensures Effective(w, op) ==> Count(Drained(w.slots[w.cur]), t.id) == 0
  {
    hide Count, Dist, Turned, Added, Deleted, Drained, Without;
    match op
    case Add(timing, job, recurring) => AddShape(w, timing, job, recurring); AddCounts(w, t, timing, job, recurring);
    case Delete(gone) => DeleteShape(w, gone); DeleteCounts(w, t, gone);
    case Tick(now, later) =>
      if Due(w, now) {
        TurnedOk(w, later);
        TurnShape(w, later);
        CountAbsent(w.slots[w.cur], t.id);
        CountDrained(w.slots[w.cur], t.id);
        forall s | 0 <= s < |w.slots|
          ensures Count(Turned(w, later).slots[s], t.id) == 0
        {
          TurnedCounts(w, later, t.id, s);
        }
      }
  }

  lemma AddShape(w: Wheel, timing: nat, job: nat, recurring: bool)
    requires w.Ok()
    ensures
      var v := Added(w, timing, job, recurring);
      v.next == w.next + 1 && v.cur == w.cur && |v.slots| == |w.slots| && v.last == w.last && v.tickTime == w.tickTime
  {
  }

  lemma DeleteShape(w: Wheel, t: Timer)
    requires t.slot < |w.slots|
    ensures Deleted(w, t).next == w.next && Deleted(w, t).cur == w.cur && |Deleted(w, t).slots| == |w.slots|
  {
  }

  lemma TurnShape(w: Wheel, later: nat)
    requires w.Ok()
    ensures Turned(w, later).next == w.next && Turned(w, later).cur == (w.cur + 1) % w.Size()
      && |Turned(w, later).slots| == |w.slots|
  {
    hide Reinserted;
  }

  /** One step for a timer in the wheel: the tick that visits its slot fires it once and removes it, every other
      tick brings it one nearer and does not fire it, and nothing else moves it. */
  lemma LocatedMoves(w: Wheel, t: Timer, d: nat, op: Op)
    requires Located(w, t, d) && Allowed(w, op) && Spares(op, t)
    ensures
      if !Effective(w, op) then Located(Step(w, op), t, d)
      else
        Count(Drained(w.slots[w.cur]), t.id) == (if d == 0 then 1 else 0)
        && if d == 0 then Gone(Step(w, op), t) else Located(Step(w, op), t, d - 1)
  {
    hide Count, Turned, Added, Deleted, Drained, Without, OneShot, SlotsNamed;
    match op
    case Add(timing, job, recurring) => AddShape(w, timing, job, recurring); AddCounts(w, t, timing, job, recurring);
    case Delete(gone) => DeleteShape(w, gone); DeleteCounts(w, t, gone);
    case Tick(now, later) =>
      if Due(w, now) {
        TurnedOk(w, later);
        TurnShape(w, later);
        TurnedOneShot(w, later, t.id);
        VisitedOnce(w, t.id);
        CountDrained(w.slots[w.cur], t.id);
        NextDist(w, Turned(w, later), t.slot);
        forall s | 0 <= s < |w.slots|
          ensures Count(Turned(w, later).slots[s], t.id) == if s == w.cur then 0 else Count(w.slots[s], t.id)
        {
          TurnedCounts(w, later, t.id, s);
        }
      }
  }

  lemma VisitedOnce(w: Wheel, id: nat)
    requires w.Ok() && OneShot(w.slots, id)
    ensures forall i :: 0 <= i < |w.slots[w.cur]| ==> w.slots[w.cur][i].recurring ==> w.slots[w.cur][i].id != id
  {
  }

  lemma {:induction false} GoneNeverFires(w: Wheel, t: Timer, ops: seq<Op>)
    requires Gone(w, t) && Runs(w, ops)
    ensures forall k :: 0 <= k < |History(w, ops)| ==> Count(History(w, ops)[k], t.id) == 0
    decreases |ops|
  {
    hide Gone, Step, Count, Drained;
    if ops != [] {
      GoneStays(w, t, ops[0]);
      GoneNeverFires(Step(w, ops[0]), t, ops[1..]);
    }
  }

  lemma {:induction false} LocatedFires(w: Wheel, t: Timer, d: nat, ops: seq<Op>)
    requires Located(w, t, d) && Runs(w, ops) && forall i :: 0 <= i < |ops| ==> Spares(ops[i], t)
    ensures forall k :: 0 <= k < |History(w, ops)| ==> Count(History(w, ops)[k], t.id) == if k == d then 1 else 0
    ensures if |History(w, ops)| <= d then Located(After(w, ops), t, d - |History(w, ops)|) else Gone(After(w, ops), t)
    decreases |ops|
  {
    hide Gone, Located, Step, Count, Drained;
    if ops != [] {
      var op, v := ops[0], Step(w, ops[0]);
      LocatedMoves(w, t, d, op);
      if !Effective(w, op) {
        LocatedFires(v, t, d, ops[1..]);
      } else if d > 0 {
        LocatedFires(v, t, d - 1, ops[1..]);
      } else {
        GoneNeverFires(v, t, ops[1..]);
        GoneAfter(v, t, ops[1..]);
      }
    }
  }

  lemma {:induction false} GoneAfter(w: Wheel, t: Timer, ops: seq<Op>)
    requires Gone(w, t) && Runs(w, ops)
    ensures Gone(After(w, ops), t)
    decreases |ops|
  {
    hide Gone, Step;
    if ops != [] {
      GoneStays(w, t, ops[0]);
      GoneAfter(Step(w, ops[0]), t, ops[1..]);
    }
  }

  lemma NewIsLocated(w: Wheel, timing: nat, job: nat)
    requires w.Ok() && SlotsNamed(w)
    ensures Located(Added(w, timing, job, false), NewTimer(w, timing, job, false), w.Ticks(timing) % w.Size())
  {
    var v, t := Added(w, timing, job, false), NewTimer(w, timing, job, false);
    PlaceDist(w, timing);
    forall s | 0 <= s < |w.slots| ensures Count(v.slots[s], t.id) == if s == t.slot then 1 else 0 {
      CountFresh(w.slots[s], t.id);
      CountConcat(w.slots[s], [t], t.id);
      CountOne(t, t.id);
    }
  }

  // ----- Main results -----

  /** A one-shot timer that is not deleted fires exactly once: in effective tick number
      `(timing / tickTime) mod slots`, counted from zero, after it was added. */
  lemma OneShotFires(w: Wheel, timing: nat, job: nat, ops: seq<Op>)
    requires w.Ok() && SlotsNamed(w) && Runs(Added(w, timing, job, false), ops)
    requires forall i :: 0 <= i < |ops| ==> Spares(ops[i], NewTimer(w, timing, job, false))
    ensures
      var t, h := NewTimer(w, timing, job, false), History(Added(w, timing, job, false), ops);
      forall k :: 0 <= k < |h| ==> Count(h[k], t.id) == if k == w.Ticks(timing) % w.Size() then 1 else 0
  {
    hide Located, Gone, Count, Added;
    NewIsLocated(w, timing, job);
    LocatedFires(Added(w, timing, job, false), NewTimer(w, timing, job, false), w.Ticks(timing) % w.Size(), ops);
  }

  /** The plain deadline is tick number `timing / tickTime`. The wheel meets it exactly when the timer fits into one
      turn: with laps to wait, it fires in its first visit, too early. */
  lemma DeadlineExactly(w: Wheel, timing: nat, job: nat, ops: seq<Op>)
    requires w.Ok() && SlotsNamed(w) && Runs(Added(w, timing, job, false), ops)
    requires forall i :: 0 <= i < |ops| ==> Spares(ops[i], NewTimer(w, timing, job, false))
    requires w.Ticks(timing) % w.Size() < |History(Added(w, timing, job, false), ops)|
    ensures
      var t, h := NewTimer(w, timing, job, false), History(Added(w, timing, job, false), ops);
      (forall k :: 0 <= k < |h| ==> Count(h[k], t.id) == if k == w.Ticks(timing) then 1 else 0)
      <==> w.Ticks(timing) < w.Size()
  {
    hide Added, Count, NewTimer, SlotsNamed;
    OneShotFires(w, timing, job, ops);
    var m := w.Ticks(timing) % w.Size();
    if w.Ticks(timing) >= w.Size() {
      var h := History(Added(w, timing, job, false), ops);
      assert Count(h[m], NewTimer(w, timing, job, false).id) == 1 && m != w.Ticks(timing);
    }
  }

  /** A one-shot timer deleted while it is pending is in the slot that it names, so the deletion finds it, and it
      never fires. */
  lemma DeletedNeverFires(w: Wheel, timing: nat, job: nat, before: seq<Op>, after: seq<Op>)
    requires w.Ok() && SlotsNamed(w) && Runs(Added(w, timing, job, false), before)
    requires forall i :: 0 <= i < |before| ==> Spares(before[i], NewTimer(w, timing, job, false))
    requires |History(Added(w, timing, job, false), before)| <= w.Ticks(timing) % w.Size()
    requires
      var t, v := NewTimer(w, timing, job, false), After(Added(w, timing, job, false), before);
      t.slot < |v.slots| ==> Runs(Deleted(v, t), after)
    ensures
      var t, v := NewTimer(w, timing, job, false), After(Added(w, timing, job, false), before);
      t.slot < |v.slots| && forall k :: 0 <= k < |History(Deleted(v, t), after)| ==>
        Count(History(Deleted(v, t), after)[k], t.id) == 0
  {
    hide Count, Added, NewTimer, SlotsNamed, Deleted, OneShot;
    var t, v := NewTimer(w, timing, job, false), After(Added(w, timing, job, false), before);
    NewIsLocated(w, timing, job);
    LocatedFires(Added(w, timing, job, false), t, w.Ticks(timing) % w.Size(), before);
    DeleteShape(v, t);
    DeleteCounts(v, t, t);
    assert Gone(Deleted(v, t), t);
    GoneNeverFires(Deleted(v, t), t, after);
  }

  // ----- Time -----

  /** A clock that never goes back: every reading is at least `from`, and differences fit into an `int`. */
  predicate Clocked(w: Wheel, from: nat, ops: seq<Op>)
    requires Runs(w, ops)
    decreases |ops|
  {
    ops == []
    || (if ops[0].Tick? then
          && from <= ops[0].now <= ops[0].later && w.last <= ops[0].now < w.last + 0x8000_0000
          && Clocked(Step(w, ops[0]), ops[0].later, ops[1..])
        else Clocked(Step(w, ops[0]), from, ops[1..]))
  }

  /** The first clock reading of effective tick number `k`. */
  function TickTime(w: Wheel, ops: seq<Op>, k: nat): nat
    requires Runs(w, ops) && k < |History(w, ops)|
    decreases |ops|
  {
    if Effective(w, ops[0]) then (if k == 0 then ops[0].now else TickTime(Step(w, ops[0]), ops[1..], k - 1))
    else TickTime(Step(w, ops[0]), ops[1..], k)
  }

  lemma KeepsTickTime(w: Wheel, op: Op)
    requires Allowed(w, op)
    ensures Step(w, op).tickTime == w.tickTime
    ensures !Effective(w, op) ==> Step(w, op).last == w.last
    ensures Effective(w, op) ==> Step(w, op).last == op.later
  {
    hide Reinserted;
  }

  lemma {:induction false} TicksApart(w: Wheel, from: nat, ops: seq<Op>, k: nat)
    requires Runs(w, ops) && Clocked(w, from, ops) && k < |History(w, ops)| && w.last <= from
    ensures TickTime(w, ops, k) >= from + k * w.tickTime
    ensures TickTime(w, ops, k) >= w.last + (k + 1) * w.tickTime
    decreases |ops|
  {
    hide Step, Drained;
    var op, v := ops[0], Step(w, ops[0]);
    KeepsTickTime(w, op);
    if Effective(w, op) {
      assert op.now - w.last >= w.tickTime;
      if k > 0 {
        TicksApart(v, op.later, ops[1..], k - 1);
        assert (k - 1) * w.tickTime + w.tickTime == k * w.tickTime;
      }
      assert k * w.tickTime + w.tickTime == (k + 1) * w.tickTime;
    } else if op.Tick? {
      ClockedFrom(v, from, op.later, ops[1..]);
      TicksApart(v, from, ops[1..], k);
    } else {
      TicksApart(v, from, ops[1..], k);
    }
  }

  lemma {:induction false} ClockedFrom(w: Wheel, from: nat, later: nat, ops: seq<Op>)
    requires Runs(w, ops) && from <= later && Clocked(w, later, ops)
    ensures Clocked(w, from, ops)
    decreases |ops|
  {
    hide Step;
    if ops != [] && !ops[0].Tick? { ClockedFrom(Step(w, ops[0]), from, later, ops[1..]); }
  }

  /** With a clock that never goes back, a one-shot timer that fits into one turn fires no sooner than
      `(timing / tickTime) * tickTime` milliseconds after it was added at time `at`. */
  lemma NoSooner(w: Wheel, timing: nat, job: nat, ops: seq<Op>, at: nat)
    requires w.Ok() && SlotsNamed(w) && Runs(Added(w, timing, job, false), ops)
    requires forall i :: 0 <= i < |ops| ==> Spares(ops[i], NewTimer(w, timing, job, false))
    requires w.last <= at && Clocked(Added(w, timing, job, false), at, ops) && w.Ticks(timing) < w.Size()
    ensures
      var t, v := NewTimer(w, timing, job, false), Added(w, timing, job, false);
      forall k :: 0 <= k < |History(v, ops)| && Count(History(v, ops)[k], t.id) > 0 ==>
        TickTime(v, ops, k) >= at + w.Ticks(timing) * w.tickTime
  {
    hide Count, NewTimer, SlotsNamed, History, Added, TickTime, Clocked, Runs;
    var t, v, m := NewTimer(w, timing, job, false), Added(w, timing, job, false), w.Ticks(timing);
    OneShotFires(w, timing, job, ops);
    AddShape(w, timing, job, false);
    InOneTurn(w, timing);
    forall k | 0 <= k < |History(v, ops)| && Count(History(v, ops)[k], t.id) > 0
      ensures TickTime(v, ops, k) >= at + m * w.tickTime
    {
      assert k == m;
      TicksApart(v, at, ops, k);
    }
  }

  lemma InOneTurn(w: Wheel, timing: nat)
    requires w.Ok() && w.Ticks(timing) < w.Size()
    ensures w.Ticks(timing) % w.Size() == w.Ticks(timing)
  {
  }
}
