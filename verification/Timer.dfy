/** The single-level timer wheel: `tick` as it is written, and which tick fires a timer. */
module Timers {
  /** A timer; `id` is its address, `job` its callback. */
  datatype Timer = Timer(id: nat, interval: nat, round: nat, slot: nat, job: nat, recurring: bool)

  /** `TimerManager`; `next` is the address of the next timer. */
  datatype Wheel = Wheel(tickTime: nat, cur: nat, last: nat, slots: seq<seq<Timer>>, next: nat) {
    predicate Ok() {
      0 < tickTime && cur < |slots| && forall s, i :: 0 <= s < |slots| && 0 <= i < |slots[s]| ==> slots[s][i].id < next
    }

    function Size(): nat { |slots| }

    /** How many ticks `timing` milliseconds are. */
    function Ticks(timing: nat): nat
      requires Ok()
    {
      timing / tickTime
    }

    function Place(timing: nat): (s: nat)
      requires Ok()
      ensures s < |slots|
    {
      (cur + Ticks(timing) % |slots|) % |slots|
    }
  }

  function NewTimer(w: Wheel, timing: nat, job: nat, recurring: bool): Timer
    requires w.Ok()
  {
    Timer(w.next, timing, w.Ticks(timing) / w.Size(), w.Place(timing), job, recurring)
  }

  function Append(slots: seq<seq<Timer>>, s: nat, t: Timer): seq<seq<Timer>>
    requires s < |slots|
  {
    slots[s := slots[s] + [t]]
  }

  /** `addTimer` */
  function Added(w: Wheel, timing: nat, job: nat, recurring: bool): Wheel
    requires w.Ok()
  {
    w.(slots := Append(w.slots, w.Place(timing), NewTimer(w, timing, job, recurring)), next := w.next + 1)
  }

  /** `list::remove` of a pointer */
  function Without(list: seq<Timer>, id: nat): seq<Timer> {
    if list == [] then [] else (if list[0].id == id then [] else [list[0]]) + Without(list[1..], id)
  }

  /** `delTimer` looks in the slot that the timer was first put into. */
  function Deleted(w: Wheel, t: Timer): Wheel
    requires t.slot < |w.slots|
  {
    w.(slots := w.slots[t.slot := Without(w.slots[t.slot], t.id)])
  }

  function Recurring(list: seq<Timer>): seq<Timer> {
    if list == [] then [] else (if list[0].recurring then [list[0]] else []) + Recurring(list[1..])
  }

  /** Recurring timers go back into the slots with a fresh round, but keep their old `slot`. */
  function Reinserted(w: Wheel, slots: seq<seq<Timer>>, list: seq<Timer>): (r: seq<seq<Timer>>)
    requires w.Ok() && |slots| == w.Size()
    ensures |r| == |slots|
    decreases |list|
  {
    if list == [] then slots
    else Reinserted(w, Append(slots, w.Place(list[0].interval), Rewound(w, list[0])), list[1..])
  }

  function Rewound(w: Wheel, t: Timer): Timer
    requires w.Ok()
  {
    t.(round := w.Ticks(t.interval) / w.Size())
  }

  /** The cast of a 64-bit difference to `int` */
  function Elapsed(now: nat, last: nat): int {
    var d := (now - last) % 0x1_0000_0000;
    if d < 0x8000_0000 then d else d - 0x1_0000_0000
  }

  predicate Due(w: Wheel, now: nat) { Elapsed(now, w.last) >= w.tickTime }

  /** The slot is emptied whatever the rounds of its timers: a timer with laps left is visited again and again
      until it has none. */
  function Drained(list: seq<Timer>): seq<Timer> { seq(|list|, i requires 0 <= i < |list| => list[i].(round := 0)) }

  /** An effective tick. */
  function Turned(w: Wheel, later: nat): Wheel
    requires w.Ok()
  {
    w.(slots := Reinserted(w, w.slots[w.cur := []], Recurring(Drained(w.slots[w.cur]))),
       cur := (w.cur + 1) % w.Size(), last := later)
  }

  // ----- As it is written -----

  /** The work left in the first loop of `tick`: every visit lowers a round or removes a timer. */
  function Work(list: seq<Timer>): nat { if list == [] then 0 else list[0].round + 1 + Work(list[1..]) }

  function Jobs(list: seq<Timer>): seq<nat> { seq(|list|, i requires 0 <= i < |list| => list[i].job) }

  lemma DrainedFirst(list: seq<Timer>)
    requires list != []
    ensures Drained(list) == [list[0].(round := 0)] + Drained(list[1..])
      && Jobs(list) == [list[0].job] + Jobs(list[1..])
  {
  }

  lemma DrainedRound(list: seq<Timer>, r: nat)
    requires list != []
    ensures Drained([list[0].(round := r)] + list[1..]) == Drained(list)
      && Jobs([list[0].(round := r)] + list[1..]) == Jobs(list)
  {
  }

  /** The wheel of a new manager: empty slots, at the first of them. */
  function NewWheel(slotNum: nat, tickTime: nat, now: nat): Wheel
    requires 0 < slotNum && 0 < tickTime
  {
    Wheel(tickTime, 0, now, seq(slotNum, i requires 0 <= i < slotNum => []), 0)
  }

  class TimerManager {
    const tickTime: nat
    var curSlot: nat
    var lastExpire: nat
    var wheel: seq<seq<Timer>>
    var next: nat

    function Value(): Wheel
      reads this
    {
      Wheel(tickTime, curSlot, lastExpire, wheel, next)
    }

    constructor (slotNum: nat, tickTime: nat, now: nat)
      requires 0 < slotNum && 0 < tickTime
      ensures Value() == NewWheel(slotNum, tickTime, now) && Value().Ok()
    {
      this.tickTime, curSlot, lastExpire, next := tickTime, 0, now, 0;
      wheel := seq(slotNum, i requires 0 <= i < slotNum => []);
    }

    /** `addTimer` */
    method AddTimer(timing: nat, job: nat, recurring: bool) returns (t: Timer)
      requires Value().Ok()
      modifies this`wheel, this`next
      ensures t == NewTimer(old(Value()), timing, job, recurring)
      ensures Value() == Added(old(Value()), timing, job, recurring) && Value().Ok()
    {
      var ticks := timing / tickTime;
      var round := ticks / |wheel|;
      var slot := (curSlot + ticks % |wheel|) % |wheel|;
      t := Timer(next, timing, round, slot, job, recurring);
      wheel, next := wheel[slot := wheel[slot] + [t]], next + 1;
    }

    /** `delTimer` */
    method DelTimer(t: Timer)
      requires Value().Ok() && t.slot < |wheel|
      modifies this`wheel
      ensures Value() == Deleted(old(Value()), t) && Value().Ok()
    {
      WithoutKeeps(wheel[t.slot], t.id);
      wheel := wheel[t.slot := Without(wheel[t.slot], t.id)];
    }

    /** `tick`: `now` and `later` are its two readings of the clock. */
    method Tick(now: nat, later: nat) returns (cbs: seq<nat>)
      requires Value().Ok()
      modifies this
      ensures Value().Ok()
      ensures if Due(old(Value()), now) then Value() == Turned(old(Value()), later)
        && cbs == Jobs(old(wheel)[old(curSlot)])
              else Value() == old(Value()) && cbs == []
    {
      hide Recurring, Drained, Jobs, Reinserted;
      cbs := [];
      if Elapsed(now, lastExpire) < tickTime { return; }
      var recur;
      cbs, recur := DrainSlot();
      Reinsert(recur, old(Value()));
      curSlot := (curSlot + 1) % |wheel|;
      lastExpire := later;
    }

    /** The first loop of `tick`. */
    method DrainSlot() returns (cbs: seq<nat>, recur: seq<Timer>)
      requires Value().Ok()
      modifies this`wheel
      ensures wheel == old(wheel)[curSlot := []] && Value().Ok()
      ensures cbs == Jobs(old(wheel)[curSlot]) && recur == Recurring(Drained(old(wheel)[curSlot]))
      ensures forall i :: 0 <= i < |recur| ==> recur[i].id < next
    {
      hide Work, Recurring, Drained, Jobs;
      cbs, recur := [], [];
      ghost var all := wheel[curSlot];
      NothingDrained();
      assert [] + Jobs(all) == Jobs(all) && [] + Recurring(Drained(all)) == Recurring(Drained(all));
      while wheel[curSlot] != []
        invariant Value().Ok() && Value() == old(Value()).(slots := wheel)
          && wheel == old(wheel)[curSlot := wheel[curSlot]]
        invariant cbs + Jobs(wheel[curSlot]) == Jobs(all)
        invariant recur + Recurring(Drained(wheel[curSlot])) == Recurring(Drained(all))
        invariant forall i :: 0 <= i < |recur| ==> recur[i].id < next
        decreases Work(wheel[curSlot])
      {
        var list := wheel[curSlot];
        var tmp := list[0];
        WorkFalls(list);
        if tmp.round > 0 {
          // the iterator stays where it is
          DrainedRound(list, tmp.round - 1);
          wheel := wheel[curSlot := [tmp.(round := tmp.round - 1)] + list[1..]];
        } else {
          DrainedFirst(list);
          RecurringFirst(tmp.(round := 0), Drained(list[1..]));
          cbs := cbs + [tmp.job];
          if tmp.recurring { recur := recur + [tmp]; }
          wheel := wheel[curSlot := list[1..]];
        }
      }
    }

    /** The second loop of `tick`. */
    method Reinsert(recur: seq<Timer>, ghost w: Wheel)
      requires Value().Ok() && forall i :: 0 <= i < |recur| ==> recur[i].id < next
      requires w.Ok() && Value() == w.(slots := wheel) && |wheel| == w.Size()
      modifies this`wheel
      ensures wheel == Reinserted(w, old(wheel), recur) && Value().Ok()
    {
      var i := 0;
      assert recur[0..] == recur;
      while i < |recur|
        invariant i <= |recur| && Value().Ok() && Value() == w.(slots := wheel) && |wheel| == w.Size()
        invariant Reinserted(w, wheel, recur[i..]) == Reinserted(w, old(wheel), recur)
      {
        var t := recur[i];
        assert recur[i..][0] == t && recur[i..][1..] == recur[i + 1..];
        var ticks := t.interval / tickTime;
        var round := ticks / |wheel|;
        var slot := (curSlot + ticks % |wheel|) % |wheel|;
        wheel := wheel[slot := wheel[slot] + [t.(round := round)]];
        i := i + 1;
      }
    }
  }

  lemma NothingDrained()
    ensures Recurring(Drained([])) == [] && Jobs([]) == []
  {
  }

  lemma RecurringFirst(t: Timer, list: seq<Timer>)
    ensures Recurring([t] + list) == (if t.recurring then [t] else []) + Recurring(list)
  {
    assert ([t] + list)[1..] == list;
  }

  lemma WorkFalls(list: seq<Timer>)
    requires list != []
    ensures Work(list[1..]) < Work(list)
    ensures forall r: nat :: r < list[0].round ==> Work([list[0].(round := r)] + list[1..]) < Work(list)
  {
    forall r: nat | r < list[0].round ensures Work([list[0].(round := r)] + list[1..]) < Work(list) {
      assert ([list[0].(round := r)] + list[1..])[1..] == list[1..];
    }
  }

  lemma {:induction false} WithoutKeeps(list: seq<Timer>, id: nat)
    ensures forall i :: 0 <= i < |Without(list, id)| ==> Without(list, id)[i] in list && Without(list, id)[i].id != id
    decreases |list|
  {
    if list != [] { WithoutKeeps(list[1..], id); }
  }
}
