/** Latency bookkeeping for one direction: which queued bytes may be sent from when. */
module DelayLines {
  import opened Basics

  // ---- Per-byte eligibility ----

  /** Eligibility times of all bytes ever committed, of which the first `done` are consumed. */
  datatype DelayData = DelayData(stamps: seq<Time>, done: nat, last: Time) {
    /** Eligibility times of the pending bytes, oldest first. */
    function Times(): seq<Time>
      requires done <= |stamps|
    {
      stamps[done..]
    }
  }

  type Delay = d: DelayData | d.done <= |d.stamps| witness DelayData([], 0, 0)

  /** Times never decrease along the stream, and `last` bounds them all. */
  ghost predicate InOrder(d: Delay) {
    && NonDecreasing(d.stamps)
    && (forall k :: 0 <= k < |d.stamps| ==> d.stamps[k] <= d.last)
  }

  function Repeat(t: Time, n: nat): (r: seq<Time>)
    ensures |r| == n && forall k :: 0 <= k < n ==> r[k] == t
  {
    seq(n, _ => t)
  }

  /** Adds `bytes` bytes that become eligible at `eligible`, but never before an earlier byte. */
  function Commit(d: Delay, bytes: nat, eligible: Time): Delay {
    if bytes == 0 then d
    else
      var t := Max(eligible, d.last);
      d.(stamps := d.stamps + Repeat(t, bytes), last := t)
  }

  function Consume(d: Delay, bytes: nat): Delay
    requires bytes <= |d.Times()|
  {
    d.(done := d.done + bytes)
  }

  /** Length of the longest prefix that is eligible at `now`. */
  function Releasable(times: seq<Time>, now: Time): (r: nat)
    ensures r <= |times|
    ensures forall k :: 0 <= k < r ==> times[k] <= now
    ensures r < |times| ==> times[r] > now
  {
    if times == [] || times[0] > now then 0 else 1 + Releasable(times[1..], now)
  }

  /** The first time, in stream order, still ahead of `now`. */
  function NextEligible(times: seq<Time>, now: Time): (r: Option<Time>)
    ensures r.Some? ==> r.value in times && r.value > now
    ensures r.None? ==> forall k :: 0 <= k < |times| ==> times[k] <= now
  {
    if times == [] then None
    else if times[0] > now then Some(times[0])
    else NextEligible(times[1..], now)
  }

  /** In order, the releasable prefix is exactly the eligible bytes, and the next eligibility time
      is the earliest time at which the prefix grows. */
  lemma ReleasableExact(d: Delay, now: Time, t: Time)
    requires InOrder(d) && now <= t
    ensures forall k :: 0 <= k < |d.Times()| ==> (d.Times()[k] <= now <==> k < Releasable(d.Times(), now))
    ensures Releasable(d.Times(), now) <= Releasable(d.Times(), t)
    ensures var next := NextEligible(d.Times(), now);
            Releasable(d.Times(), t) > Releasable(d.Times(), now) <==> next.Some? && t >= next.value
  {
    var times := d.Times();
    var r := Releasable(times, now);
    assert forall j, k :: 0 <= j <= k < |times| ==> times[j] <= times[k];
    NextEligibleIsFirst(times, now);
    var r' := Releasable(times, t);
    assert r < |times| ==> times[r] > now;
    assert r' < |times| ==> times[r'] > t;
  }

  lemma {:induction false} NextEligibleIsFirst(times: seq<Time>, now: Time)
    ensures var r := Releasable(times, now);
            NextEligible(times, now) == if r < |times| then Some(times[r]) else None
  {
    if times != [] && times[0] <= now {
      NextEligibleIsFirst(times[1..], now);
    }
  }

  lemma CommitInOrder(d: Delay, bytes: nat, eligible: Time)
    requires InOrder(d)
    ensures InOrder(Commit(d, bytes, eligible))
    ensures Commit(d, bytes, eligible).Times() == d.Times() + Repeat(Max(eligible, d.last), bytes)
  {
  }

  // ---- The segment list ----

  datatype Segment = Segment(bytes: pos, eligibleAt: Time)

  /** Per-byte times a list of segments stands for. */
  ghost function Flatten(segments: seq<Segment>): seq<Time> {
    if segments == [] then []
    else Repeat(segments[0].eligibleAt, segments[0].bytes) + Flatten(segments[1..])
  }

  lemma Associative<T>(a: seq<T>, b: seq<T>, c: seq<T>)
    ensures (a + b) + c == a + (b + c)
  {
  }

  lemma RepeatSplit(t: Time, m: nat, n: nat)
    ensures Repeat(t, m + n) == Repeat(t, m) + Repeat(t, n)
  {
  }

  lemma {:induction false} FlattenConcat(a: seq<Segment>, b: seq<Segment>)
    ensures Flatten(a + b) == Flatten(a) + Flatten(b)
  {
    if a == [] {
      assert a + b == b;
    } else {
      FlattenConcat(a[1..], b);
      assert (a + b)[0] == a[0] && (a + b)[1..] == a[1..] + b;
      Associative(Repeat(a[0].eligibleAt, a[0].bytes), Flatten(a[1..]), Flatten(b));
    }
  }

  lemma FlattenLast(front: seq<Segment>, last: Segment)
    ensures Flatten(front + [last]) == Flatten(front) + Repeat(last.eligibleAt, last.bytes)
  {
    FlattenConcat(front, [last]);
    assert [last][1..] == [];
    assert Flatten([last]) == Repeat(last.eligibleAt, last.bytes);
  }

  /** Growing the last segment appends its bytes' times, as adding a segment does. */
  lemma FlattenGrow(front: seq<Segment>, last: Segment, bytes: pos)
    ensures Flatten(front + [last.(bytes := last.bytes + bytes)])
            == Flatten(front + [last]) + Repeat(last.eligibleAt, bytes)
  {
    FlattenLast(front, last);
    FlattenLast(front, last.(bytes := last.bytes + bytes));
    RepeatSplit(last.eligibleAt, last.bytes, bytes);
    Associative(Flatten(front), Repeat(last.eligibleAt, last.bytes), Repeat(last.eligibleAt, bytes));
  }

  lemma FlattenFrom(segments: seq<Segment>, i: nat)
    requires i < |segments|
    ensures Flatten(segments[i..]) == Repeat(segments[i].eligibleAt, segments[i].bytes) + Flatten(segments[i + 1..])
  {
    assert segments[i..][1..] == segments[i + 1..];
  }

  /** What one segment contributes to the two walks over the list. */
  lemma WalkStep(s: Segment, rest: seq<Time>, now: Time)
    ensures var times := Repeat(s.eligibleAt, s.bytes) + rest;
            if s.eligibleAt > now then Releasable(times, now) == 0 && NextEligible(times, now) == Some(s.eligibleAt)
            else Releasable(times, now) == s.bytes + Releasable(rest, now)
                 && NextEligible(times, now) == NextEligible(rest, now)
  {
    if s.eligibleAt <= now {
      ReleasableSkips(Repeat(s.eligibleAt, s.bytes), rest, now);
    }
  }

  lemma {:induction false} ReleasableSkips(front: seq<Time>, rest: seq<Time>, now: Time)
    requires forall k :: 0 <= k < |front| ==> front[k] <= now
    ensures Releasable(front + rest, now) == |front| + Releasable(rest, now)
    ensures NextEligible(front + rest, now) == NextEligible(rest, now)
  {
    if front == [] {
      assert front + rest == rest;
    } else {
      assert (front + rest)[1..] == front[1..] + rest;
      ReleasableSkips(front[1..], rest, now);
    }
  }

  class DelayLine {
    var segments: seq<Segment>
    var pending: nat
    var lastEligible: Time
    ghost var stamps: seq<Time>
    ghost var done: nat

    ghost predicate Valid()
      reads this
    {
      && done <= |stamps|
      && Flatten(segments) == stamps[done..]
      && pending == |stamps| - done
    }

    ghost function Model(): Delay
      requires Valid()
      reads this
    {
      DelayData(stamps, done, lastEligible)
    }

    constructor ()
      ensures Valid() && Model() == DelayData([], 0, 0)
    {
      segments, pending, lastEligible := [], 0, 0;
      stamps, done := [], 0;
    }

    method OnCommit(bytes: nat, eligible: Time)
      requires Valid()
      modifies this
      ensures Valid() && Model() == Commit(old(Model()), bytes, eligible)
    {
      if bytes == 0 {
        return;
      }
      var eligibleAt := if eligible < lastEligible then lastEligible else eligible;
      lastEligible := eligibleAt;
      if segments != [] && segments[|segments| - 1].eligibleAt == eligibleAt {
        var front, back := segments[..|segments| - 1], segments[|segments| - 1];
        assert segments == front + [back];
        FlattenGrow(front, back, bytes);
        segments := front + [back.(bytes := back.bytes + bytes)];
      } else {
        FlattenLast(segments, Segment(bytes, eligibleAt));
        segments := segments + [Segment(bytes, eligibleAt)];
      }
      stamps := stamps + Repeat(eligibleAt, bytes);
      pending := pending + bytes;
    }

    method ReleasableNow(now: Time) returns (total: nat)
      requires Valid()
      ensures total == Releasable(Model().Times(), now)
    {
      total := 0;
      var i := 0;
      while i < |segments|
        invariant i <= |segments|
        invariant Releasable(Flatten(segments), now) == total + Releasable(Flatten(segments[i..]), now)
      {
        FlattenFrom(segments, i);
        WalkStep(segments[i], Flatten(segments[i + 1..]), now);
        if segments[i].eligibleAt > now {
          return;
        }
        total := total + segments[i].bytes;
        i := i + 1;
      }
    }

    /** Drops the `bytes` oldest pending bytes; refuses more than are pending. */
    method OnConsume(bytes: nat) returns (ok: bool)
      requires Valid()
      modifies this
      ensures Valid()
      ensures ok == (bytes <= |old(Model()).Times()|)
      ensures ok ==> Model() == Consume(old(Model()), bytes)
      ensures !ok ==> unchanged(this)
    {
      if bytes > pending {
        return false;
      }
      pending := pending - bytes;
      var left := bytes;
      while left > 0
        invariant 0 <= left <= bytes && done <= |stamps|
        invariant done + left == old(done) + bytes
        invariant Flatten(segments) == stamps[done..]
        invariant stamps == old(stamps) && pending == old(pending) - bytes && lastEligible == old(lastEligible)
      {
        var front := segments[0];
        var taken := if left < front.bytes then left else front.bytes;
        if taken == front.bytes {
          segments := segments[1..];
        } else {
          var rest := front.(bytes := front.bytes - taken);
          assert ([rest] + segments[1..])[1..] == segments[1..];
          segments := [rest] + segments[1..];
        }
        left := left - taken;
        done := done + taken;
      }
      ok := true;
    }

    method NextEligibleAfter(now: Time) returns (r: Option<Time>)
      requires Valid()
      ensures r == NextEligible(Model().Times(), now)
    {
      var i := 0;
      while i < |segments|
        invariant i <= |segments|
        invariant NextEligible(Flatten(segments), now) == NextEligible(Flatten(segments[i..]), now)
      {
        FlattenFrom(segments, i);
        WalkStep(segments[i], Flatten(segments[i + 1..]), now);
        if segments[i].eligibleAt > now {
          return Some(segments[i].eligibleAt);
        }
        i := i + 1;
      }
      r := None;
    }
  }
}
