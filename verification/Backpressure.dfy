/** The watermark hysteresis tracker: pausing, resuming, and paused-time accounting. */
module Backpressure {
  import opened Basics

  datatype Transition = Unchanged | Paused | Resumed

  datatype TrackerData = TrackerData(
    low: nat, high: nat, paused: bool, atCapacity: bool,
    pauseStartedAt: Time, totalPaused: int,
    pauseCount: nat, resumeCount: nat, saturationCount: nat)
  {
    function PausedDuration(now: Time): int {
      totalPaused + if paused then now - pauseStartedAt else 0
    }
  }

  type Tracker = t: TrackerData | t.low < t.high
    witness TrackerData(0, 1, false, false, 0, 0, 0, 0, 0)

  function NewTracker(low: nat, high: nat): Tracker
    requires low < high
  {
    TrackerData(low, high, false, false, 0, 0, 0, 0, 0)
  }

  function TransitionOf(t: Tracker, occupancy: nat): Transition {
    if !t.paused && occupancy >= t.high then Paused
    else if t.paused && occupancy <= t.low then Resumed
    else Unchanged
  }

  function Observe(t: Tracker, occupancy: nat, capacity: nat, now: Time): Tracker {
    var t1 := t.(atCapacity := occupancy == capacity,
                 saturationCount := t.saturationCount + if occupancy == capacity && !t.atCapacity then 1 else 0);
    match TransitionOf(t, occupancy)
    case Paused => t1.(paused := true, pauseStartedAt := now, pauseCount := t.pauseCount + 1)
    case Resumed => t1.(paused := false, totalPaused := t.totalPaused + (now - t.pauseStartedAt),
                        resumeCount := t.resumeCount + 1)
    case Unchanged => t1
  }

  // ---- Paused time over a history of observations ----

  datatype Observation = Observation(occupancy: nat, now: Time)

  function AfterAll(t: Tracker, capacity: nat, history: seq<Observation>): Tracker {
    if history == [] then t
    else
      var last := history[|history| - 1];
      Observe(AfterAll(t, capacity, history[..|history| - 1]), last.occupancy, capacity, last.now)
  }

  /** Independent account: the summed length, up to `now`, of the stretches between consecutive
      observations that were entered with reads paused. */
  function PausedStretches(t: Tracker, capacity: nat, history: seq<Observation>, now: Time): int {
    if history == [] then 0
    else
      var last := history[|history| - 1];
      PausedStretches(t, capacity, history[..|history| - 1], last.now)
      + if AfterAll(t, capacity, history).paused then now - last.now else 0
  }

  /** The tracker's paused duration is the total length of the paused stretches. */
  lemma {:induction false} PausedDurationIsTotal(
      low: nat, high: nat, capacity: nat, history: seq<Observation>, now: Time)
    requires low < high
    ensures var t := NewTracker(low, high);
            AfterAll(t, capacity, history).PausedDuration(now) == PausedStretches(t, capacity, history, now)
  {
    if history != [] {
      PausedDurationIsTotal(low, high, capacity, history[..|history| - 1], history[|history| - 1].now);
    }
  }

  class BackpressureTracker {
    const low: nat
    const high: nat
    var readPaused: bool
    var atCapacity: bool
    var pauseStartedAt: Time
    var totalPaused: int
    var pauseCount: nat
    var resumeCount: nat
    var saturationCount: nat

    ghost predicate Valid() {
      low < high
    }

    ghost function Model(): Tracker
      requires Valid()
      reads this
    {
      TrackerData(low, high, readPaused, atCapacity, pauseStartedAt, totalPaused,
                  pauseCount, resumeCount, saturationCount)
    }

    constructor (low: nat, high: nat)
      requires low < high
      ensures Valid() && Model() == NewTracker(low, high)
    {
      this.low, this.high := low, high;
      readPaused, atCapacity, pauseStartedAt, totalPaused := false, false, 0, 0;
      pauseCount, resumeCount, saturationCount := 0, 0, 0;
    }

    /** Watermarks must satisfy `low < high` (which forces a positive high-water mark). */
    static method Create(low: nat, high: nat) returns (r: Option<BackpressureTracker>)
      ensures r.None? <==> high == 0 || low >= high
      ensures r.Some? ==> r.value.Valid() && fresh(r.value) && r.value.Model() == NewTracker(low, high)
    {
      if high == 0 || low >= high {
        return None;
      }
      var tracker := new BackpressureTracker(low, high);
      r := Some(tracker);
    }

    /** Refuses an occupancy, or a high-water mark, above the capacity. */
    method ObserveOccupancy(occupancy: nat, capacity: nat, now: Time) returns (r: Option<Transition>)
      requires Valid()
      modifies this
      ensures r.None? <==> occupancy > capacity || high > capacity
      ensures r.None? ==> unchanged(this)
      ensures r.Some? ==> Model() == Observe(old(Model()), occupancy, capacity, now)
                          && r.value == TransitionOf(old(Model()), occupancy)
    {
      if occupancy > capacity || high > capacity {
        return None;
      }
      if occupancy == capacity {
        if !atCapacity {
          saturationCount := saturationCount + 1;
          atCapacity := true;
        }
      } else {
        atCapacity := false;
      }
      if !readPaused && occupancy >= high {
        readPaused := true;
        pauseStartedAt := now;
        pauseCount := pauseCount + 1;
        return Some(Paused);
      }
      if readPaused && occupancy <= low {
        readPaused := false;
        totalPaused := totalPaused + (now - pauseStartedAt);
        resumeCount := resumeCount + 1;
        return Some(Resumed);
      }
      r := Some(Unchanged);
    }

    method PausedFor(now: Time) returns (duration: int)
      requires Valid()
      ensures duration == Model().PausedDuration(now)
    {
      var current := if readPaused then now - pauseStartedAt else 0;
      duration := totalPaused + current;
    }
  }
}
