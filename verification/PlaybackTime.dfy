/** How far along an action is, and when a paused one is to be restarted. Durations are nanoseconds. */
module PlaybackTime {
  import opened Containers

  /** What a controller reports: `duration` counts from `startTime`. */
  datatype DurationInfoInt = DurationInfoInt(duration: nat, startTime: nat, est: Option<nat>)

  /** What is kept while paused: elapsed time, or the time still to wait when `pos` is false. */
  datatype DurationInfo = DurationInfo(elapsed: nat, pos: bool, est: Option<nat>)

  function Elapsed(v: DurationInfoInt, now: nat): (nat, bool) {
    if v.startTime > now then (v.startTime - now, false) else (v.duration, true)
  }

  function FromInt(v: DurationInfoInt, now: nat): DurationInfo {
    var (elapsed, pos) := Elapsed(v, now);
    DurationInfo(elapsed, pos, v.est)
  }

  /** The start time that `execute` passes on; with nothing kept the pre-wait applies. */
  function StartTime(info: Option<DurationInfo>, now: nat, prewait: nat): int {
    match info
    case None => now + prewait
    case Some(d) => if d.pos then now - d.elapsed else now + d.elapsed
  }

  /** A pause and a resumption, with the duration the controller reported at the pause. */
  datatype Pause = Pause(paused: nat, resumed: nat, reported: nat)

  /** The start time an action due at `start` is given when it is resumed. */
  function Restart(start: nat, p: Pause, est: Option<nat>, prewait: nat): (again: int)
    ensures p.paused < start ==> again - p.resumed == start - p.paused
  {
    StartTime(Some(FromInt(DurationInfoInt(p.reported, start, est), p.paused)), p.resumed, prewait)
  }

  /** Every pause comes before the action has started, and the clock does not go backwards. */
  ghost predicate WaitingThrough(start: nat, pauses: seq<Pause>, est: Option<nat>, prewait: nat)
    decreases |pauses|
  {
    pauses != [] ==>
      && pauses[0].paused < start && pauses[0].paused <= pauses[0].resumed
      && WaitingThrough(Restart(start, pauses[0], est, prewait), pauses[1..], est, prewait)
  }

  function StartAfter(start: nat, pauses: seq<Pause>, est: Option<nat>, prewait: nat): nat
    requires WaitingThrough(start, pauses, est, prewait)
    decreases |pauses|
  {
    if pauses == [] then start else StartAfter(Restart(start, pauses[0], est, prewait), pauses[1..], est, prewait)
  }

  function TotalPaused(pauses: seq<Pause>): int {
    if pauses == [] then 0 else pauses[0].resumed - pauses[0].paused + TotalPaused(pauses[1..])
  }

  /** Over any number of pauses during the pre-wait, whatever durations were reported, the start moves
      by exactly the time spent paused: the wait left is used up only while not paused. */
  lemma {:induction false} PreWaitPreserved(start: nat, pauses: seq<Pause>, est: Option<nat>, prewait: nat)
    requires WaitingThrough(start, pauses, est, prewait)
    ensures StartAfter(start, pauses, est, prewait) == start + TotalPaused(pauses)
    decreases |pauses|
  {
    if pauses != [] {
      PreWaitPreserved(Restart(start, pauses[0], est, prewait), pauses[1..], est, prewait);
    }
  }
}
