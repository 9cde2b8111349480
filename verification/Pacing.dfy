/** What pacing guarantees about one direction: the rate envelope over any window, the split
    between waiting for the socket and waiting for time, and progress through wakes. */
module Pacing {
  import opened Basics
  import opened Arithmetic
  import opened DelayLines
  import opened TokenBuckets
  import opened Flows

  // ---- Rate envelope over a window of time ----

  function CountWithin(times: seq<Time>, from: Time, to: Time): nat {
    if times == [] then 0
    else
      var last := times[|times| - 1];
      CountWithin(times[..|times| - 1], from, to) + if from <= last <= to then 1 else 0
  }

  lemma {:induction false} WindowSpan(times: seq<Time>, from: Time, to: Time) returns (i: nat, j: nat)
    requires CountWithin(times, from, to) > 0
    ensures i <= j < |times| && from <= times[i] && times[j] <= to
    ensures CountWithin(times, from, to) <= j - i + 1
  {
    var n := |times| - 1;
    if CountWithin(times[..n], from, to) == 0 {
      i, j := n, n;
    } else {
      i, j := WindowSpan(times[..n], from, to);
      if from <= times[n] <= to {
        j := n;
      }
    }
  }

  /** In any window, sends within the envelope come to at most the burst plus the rate times the
      window's length. */
  lemma WindowAffords(b: Bucket, sentAt: seq<Time>, from: Time, to: Time)
    requires Envelope(b, sentAt) && from <= to
    ensures Affordable(b, CountWithin(sentAt, from, to), 0, from, to)
  {
    MulMonotone(0, to - from, b.rate);
    if CountWithin(sentAt, from, to) > 0 {
      var i, j := WindowSpan(sentAt, from, to);
      assert Affordable(b, j - i + 1, 0, sentAt[i], sentAt[j]);
      var span := sentAt[j] as int - sentAt[i] as int;
      MulMonotone(span, to - from, b.rate);
    }
  }

  /** A rate-limited direction whose bucket is never filled early keeps to its envelope. */
  lemma RateWindow(f: Flow, t: Time, from: Time, to: Time)
    requires FlowInv(f, t) && Limited(f) && BucketOf(f).Bounded() && from <= to
    ensures Affordable(BucketOf(f), CountWithin(f.sentAt, from, to), 0, from, to)
  {
    EnvelopeHolds(f, t);
    WindowAffords(BucketOf(f), f.sentAt, from, to);
  }

  lemma EnvelopeHolds(f: Flow, t: Time)
    requires FlowInv(f, t) && Limited(f) && BucketOf(f).Bounded()
    ensures Envelope(BucketOf(f), f.sentAt)
  {
    assert RateKept(f, t);
  }

  /** A send is never a dribble: the budget is nothing, or everything eligible, or at least the
      release quantum. */
  lemma BudgetIsWorthwhile(fault: Option<Channel>, limit: nat, now: Time)
    ensures var budget := Budget(fault, limit, now);
            var eligible := Eligible(fault, limit, now);
            && budget <= eligible <= limit
            && (budget == 0 || budget == eligible
                || (fault.Some? && fault.value.bucket.Some?
                    && budget >= Quantum(eligible, fault.value.bucket.value.burst)))
  {
  }

  // ---- Waiting for the socket or for time ----

  function Earlier(left: Option<Time>, right: Option<Time>): Option<Time> {
    if left.None? then right
    else if right.None? then left
    else Some(if left.value <= right.value then left.value else right.value)
  }

  /** When a direction with `size` queued bytes that may send nothing at `now` should be looked at
      again; nothing when progress needs only a writable socket. */
  function WakeOf(fault: Option<Channel>, size: nat, now: Time): Option<Time> {
    if size == 0 || fault.None? || Budget(fault, size, now) > 0 then None
    else
      var ch := fault.value;
      var releasable := if ch.delay.Some? then Releasable(ch.delay.value.Times(), now) else size;
      var wake := if ch.delay.Some? && releasable == 0 then NextEligible(ch.delay.value.Times(), now) else None;
      if ch.bucket.Some? && releasable > 0 then
        Earlier(wake, Some(EligibleAt(ch.bucket.value, Quantum(releasable, ch.bucket.value.burst), now)))
      else wake
  }

  lemma WakeIsLater(fault: Option<Channel>, size: nat, now: Time)
    ensures WakeOf(fault, size, now).Some? ==> WakeOf(fault, size, now).value > now
  {
    if WakeOf(fault, size, now).Some? && fault.value.bucket.Some? {
      var ch := fault.value;
      var releasable := if ch.delay.Some? then Releasable(ch.delay.value.Times(), now) else size;
      EligibleAtLater(ch.bucket.value, Quantum(releasable, ch.bucket.value.burst), now);
    }
  }

  /** A direction with queued bytes is blocked on exactly one thing: on the socket, when the faults
      let something out now, or on time, and then a wake is due strictly later. */
  lemma SocketXorTime(f: Flow, now: Time)
    requires FlowInv(f, now) && f.lane.queue != []
    ensures var size := |f.lane.queue|;
            (Budget(f.lane.fault, size, now) > 0) != WakeOf(f.lane.fault, size, now).Some?
    ensures var wake := WakeOf(f.lane.fault, |f.lane.queue|, now);
            wake.Some? ==> wake.value > now
  {
    WakeIsLater(f.lane.fault, |f.lane.queue|, now);
    if Delayed(f) {
      assert |Line(f).Times()| == |f.lane.queue|;
    }
  }

  /** If the faults let out some of the whole queue, they let out some of its contiguous front:
      write interest means a flush at that instant really sends. */
  lemma WholeImpliesContiguous(fault: Option<Channel>, size: nat, contiguous: nat, now: Time)
    requires 0 < contiguous <= size
    ensures Budget(fault, size, now) > 0 ==> Budget(fault, contiguous, now) > 0
  {
  }

  /** The converse fails exactly when the tokens afford the quantum of the shorter span but not
      that of the whole queue. */
  lemma ContiguousOnly(fault: Option<Channel>, size: nat, contiguous: nat, now: Time)
    requires 0 < contiguous <= size
    ensures (Budget(fault, contiguous, now) > 0 && Budget(fault, size, now) == 0) <==>
            (fault.Some? && fault.value.bucket.Some? &&
             var b := fault.value.bucket.value;
             var front := Quantum(Eligible(fault, contiguous, now), b.burst);
             0 < front <= Available(b, now) < Quantum(Eligible(fault, size, now), b.burst))
  {
  }

  /** Asking twice at one time gets the same answers. */
  lemma SettleAgain(fault: Option<Channel>, size: nat, now: Time)
    ensures var settled := Settle(fault, now);
            && Settle(settled, now) == settled
            && Budget(settled, size, now) == Budget(fault, size, now)
            && WakeOf(settled, size, now) == WakeOf(fault, size, now)
  {
    if fault.Some? && fault.value.bucket.Some? {
      RefillOnce(fault.value.bucket.value, now);
    }
  }

  /** Asking is harmless: an earlier question changes no later answer. */
  lemma AskingIsHarmless(fault: Option<Channel>, size: nat, t1: Time, t2: Time)
    requires t1 <= t2
    requires fault.Some? && fault.value.bucket.Some? ==> fault.value.bucket.value.Exact()
    ensures var settled := Settle(fault, t1);
            && Settle(settled, t2) == Settle(fault, t2)
            && Budget(settled, size, t2) == Budget(fault, size, t2)
            && WakeOf(settled, size, t2) == WakeOf(fault, size, t2)
  {
    if fault.Some? && fault.value.bucket.Some? {
      RefillCadence(fault.value.bucket.value, t1, t2);
      SameEligibleAt(fault.value.bucket.value, t1, t2);
    }
  }

  lemma SameEligibleAt(b: Bucket, t1: Time, t2: Time)
    requires t1 <= t2 && b.Exact()
    ensures Available(Refill(b, t1), t2) == Available(b, t2)
    ensures forall bytes: nat :: EligibleAt(Refill(b, t1), bytes, t2) == EligibleAt(b, bytes, t2)
  {
    RefillCadence(b, t1, t2);
  }
}
