/** The deadline queue: entries leave in order of deadline, then of scheduling. */
module TimerQueues {
  import opened Basics

  datatype TimerKind = Pump | IdleTimeout | ConnectTimeout

  datatype TimerEvent = TimerEvent(deadline: Time, sequence: nat, id: nat, kind: TimerKind)

  predicate Before(a: TimerEvent, b: TimerEvent) {
    a.deadline < b.deadline || (a.deadline == b.deadline && a.sequence < b.sequence)
  }

  datatype TimersData = TimersData(events: set<TimerEvent>, next: nat)

  ghost predicate Numbered(t: TimersData) {
    && (forall e :: e in t.events ==> e.sequence < t.next)
    && (forall e, f :: e in t.events && f in t.events && e.sequence == f.sequence ==> e == f)
  }

  type Timers = t: TimersData | Numbered(t) witness TimersData({}, 1)

  function Schedule(t: Timers, deadline: Time, id: nat, kind: TimerKind): Timers {
    TimersData(t.events + {TimerEvent(deadline, t.next, id, kind)}, t.next + 1)
  }

  ghost predicate IsTop(e: TimerEvent, events: set<TimerEvent>) {
    e in events && forall f :: f in events && f != e ==> Before(e, f)
  }

  lemma {:induction false} TopExists(t: Timers)
    requires t.events != {}
    ensures exists e :: IsTop(e, t.events)
    decreases |t.events|
  {
    var e :| e in t.events;
    var rest := TimersData(t.events - {e}, t.next);
    assert forall f :: f in t.events && f != e ==> f in rest.events;
    if rest.events == {} {
      assert IsTop(e, t.events);
    } else {
      TopExists(rest);
      var f :| IsTop(f, rest.events);
      assert e.sequence != f.sequence;
      if Before(e, f) {
        assert IsTop(e, t.events);
      } else {
        assert IsTop(f, t.events);
      }
    }
  }

  ghost function Top(t: Timers): (e: TimerEvent)
    requires t.events != {}
    ensures IsTop(e, t.events)
  {
    TopExists(t);
    var e :| IsTop(e, t.events);
    e
  }

  lemma TopIsUnique(t: Timers, e: TimerEvent)
    requires IsTop(e, t.events)
    ensures t.events != {} && e == Top(t)
  {
  }

  ghost function PopDue(t: Timers, now: Time): (Timers, Option<TimerEvent>) {
    if t.events == {} || Top(t).deadline > now then (t, None)
    else (TimersData(t.events - {Top(t)}, t.next), Some(Top(t)))
  }

  ghost function NextDeadline(t: Timers): Option<Time> {
    if t.events == {} then None else Some(Top(t).deadline)
  }

  /** The entries due at `now`. */
  ghost function Due(t: Timers, now: Time): set<TimerEvent> {
    set e | e in t.events && e.deadline <= now
  }

  /** A pop takes the first due entry, and refuses only when none is due. */
  lemma PopTakesFirst(t: Timers, now: Time)
    ensures var (t', popped) := PopDue(t, now);
            && (popped.None? <==> Due(t, now) == {})
            && (popped.None? ==> t' == t)
            && (popped.Some? ==>
                  && popped.value in Due(t, now) && t'.events == t.events - {popped.value}
                  && forall e :: e in t'.events ==> Before(popped.value, e))
    ensures NextDeadline(t).None? <==> t.events == {}
    ensures forall e :: e in t.events ==> NextDeadline(t).value <= e.deadline
  {
    if t.events != {} && Top(t).deadline <= now {
      assert Top(t) in Due(t, now);
    }
  }

  class TimerQueue {
    var heap: set<TimerEvent>
    var nextSequence: nat

    ghost predicate Valid()
      reads this
    {
      Numbered(TimersData(heap, nextSequence))
    }

    ghost function Model(): Timers
      requires Valid()
      reads this
    {
      TimersData(heap, nextSequence)
    }

    constructor ()
      ensures Valid() && Model() == TimersData({}, 1)
    {
      heap, nextSequence := {}, 1;
    }

    method Add(deadline: Time, id: nat, kind: TimerKind)
      requires Valid()
      modifies this
      ensures Valid() && Model() == Schedule(old(Model()), deadline, id, kind)
    {
      heap := heap + {TimerEvent(deadline, nextSequence, id, kind)};
      nextSequence := nextSequence + 1;
    }

    /** The first entry of a non-empty queue. */
    method First() returns (e: TimerEvent)
      requires Valid() && heap != {}
      ensures e == Top(Model())
    {
      TopExists(Model());
      e :| e in heap && forall f :: f in heap && f != e ==> Before(e, f);
      assert IsTop(e, heap);
      TopIsUnique(Model(), e);
    }

    method TakeDue(now: Time) returns (r: Option<TimerEvent>)
      requires Valid()
      modifies this
      ensures Valid() && (Model(), r) == PopDue(old(Model()), now)
    {
      if heap == {} {
        return None;
      }
      var top := First();
      if top.deadline > now {
        return None;
      }
      heap := heap - {top};
      r := Some(top);
    }

    method Earliest() returns (r: Option<Time>)
      requires Valid()
      ensures r == NextDeadline(Model())
    {
      if heap == {} {
        return None;
      }
      var top := First();
      r := Some(top.deadline);
    }
  }
}
