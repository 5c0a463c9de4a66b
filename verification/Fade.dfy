/** Fading the volumes of an audio cue: what executing, pausing and resuming a fade does to the
    volume parameters of the cue's senders. */
module Fade {
  import opened Containers
  import opened Param
  import opened PlaybackTime
  import Engine

  /** `fades` and `fadeMaster` are (enabled, target in dB); durations are nanoseconds. */
  datatype FadeParams = FadeParams(target: Option<nat>, fades: seq<(bool, real)>, fadeMaster: (bool, real), dur: nat)

  /** `fd` is the last fade applied by the execution; its identity is shared by all of them. */
  datatype RunningData = RunningData(params: FadeParams, startTime: nat, fd: Param.Fade)

  /** The volume parameters of a cue. Without senders there is no master. */
  datatype Levels = Levels(master: Parameter, volumes: seq<Parameter>)

  /** Freezing a sender reads the clock twice. */
  datatype Reading = Reading(time: nat, thresh: nat)

  // ---- executing ----

  function AppliedFade(p: Parameter, to: real, dur: nat, time: nat, gt: nat, id: nat): Param.Fade {
    Param.Fade(Get(p, gt), to - Get(p, gt), time, dur, true, id)
  }

  function BlankFade(id: nat): Param.Fade {
    Param.Fade(0.0, 0.0, 0, 0, false, id)
  }

  predicate FadesMaster(params: FadeParams, l: Levels) {
    params.fadeMaster.0 && |l.volumes| > 0
  }

  predicate FadesVolume(params: FadeParams, i: nat) {
    i < |params.fades| && params.fades[i].0
  }

  function ExecuteVolume(p: Parameter, i: nat, params: FadeParams, dbLin: real -> real, time: nat, gt: nat, id: nat)
    : Parameter
  {
    if FadesVolume(params, i) then LinearFade(AppliedFade(p, dbLin(params.fades[i].1), params.dur, time, gt, id)) else p
  }

  function ExecuteMaster(l: Levels, params: FadeParams, dbLin: real -> real, time: nat, gt: nat, id: nat): Parameter {
    if FadesMaster(params, l)
      then LinearFade(AppliedFade(l.master, dbLin(params.fadeMaster.1), params.dur, time, gt, id))
    else l.master
  }

  /** The cue's levels once the master and the first n channels have been handled. */
  function ExecuteUpTo(l: Levels, n: nat, params: FadeParams, dbLin: real -> real, time: nat, gt: nat, id: nat)
    : Levels
  {
    Levels(ExecuteMaster(l, params, dbLin, time, gt, id),
           seq(|l.volumes|, i requires 0 <= i < |l.volumes| =>
             if i < n then ExecuteVolume(l.volumes[i], i, params, dbLin, time, gt, id) else l.volumes[i]))
  }

  function ExecuteLevels(l: Levels, params: FadeParams, dbLin: real -> real, time: nat, gt: nat, id: nat): Levels {
    ExecuteUpTo(l, |params.fades|, params, dbLin, time, gt, id)
  }

  /** What the running data remembers of the fades applied so far. */
  function LastFade(l: Levels, n: nat, params: FadeParams, dbLin: real -> real, time: nat, gt: nat, id: nat,
                    blank: nat): Param.Fade
  {
    if n == 0 then
      if FadesMaster(params, l) then AppliedFade(l.master, dbLin(params.fadeMaster.1), params.dur, time, gt, id)
      else BlankFade(blank)
    else if n - 1 < |l.volumes| && FadesVolume(params, n - 1) then
      AppliedFade(l.volumes[n - 1], dbLin(params.fades[n - 1].1), params.dur, time, gt, id)
    else LastFade(l, n - 1, params, dbLin, time, gt, id, blank)
  }

  lemma FadeStep(l: Levels, i: nat, params: FadeParams, dbLin: real -> real, time: nat, gt: nat, id: nat, blank: nat)
    requires i < |params.fades|
    ensures LastFade(l, i + 1, params, dbLin, time, gt, id, blank) ==
            if i < |l.volumes| && params.fades[i].0
              then AppliedFade(l.volumes[i], dbLin(params.fades[i].1), params.dur, time, gt, id)
            else LastFade(l, i, params, dbLin, time, gt, id, blank)
    ensures i >= |l.volumes| || !params.fades[i].0 ==>
              ExecuteUpTo(l, i + 1, params, dbLin, time, gt, id) == ExecuteUpTo(l, i, params, dbLin, time, gt, id)
  {
  }

  /** Some sender below n is faded. */
  predicate FadesVolumeBelow(params: FadeParams, l: Levels, n: nat) {
    exists i: nat :: i < n && i < |l.volumes| && FadesVolume(params, i)
  }

  /** All the fades of one execution share their timing and identity, so the one remembered stands
      for any of them; with nothing to fade a blank one is kept. */
  lemma {:induction false} LastFadeShared(l: Levels, n: nat, params: FadeParams, dbLin: real -> real, time: nat,
                                          gt: nat, id: nat, blank: nat)
    ensures
      var f := LastFade(l, n, params, dbLin, time, gt, id, blank);
      if FadesMaster(params, l) || FadesVolumeBelow(params, l, n) then
        f.start == time && f.duration == params.dur && f.active && f.id == id
      else f == BlankFade(blank)
  {
    if n > 0 {
      LastFadeShared(l, n - 1, params, dbLin, time, gt, id, blank);
      assert FadesVolumeBelow(params, l, n) <==>
             FadesVolumeBelow(params, l, n - 1) || (n - 1 < |l.volumes| && FadesVolume(params, n - 1));
    }
  }

  // ---- freezing ----

  /** A sender still under the given fade is held where it is; before the threshold it reads what it
      had when the fade was scheduled. */
  function FreezeParam(p: Parameter, id: nat, origT: nat, r: Reading): Parameter {
    if p.LinearFade? && p.fade.id == id then TimedRaw(Get(p, r.time), r.thresh + 1, Get(p, origT)) else p
  }

  /** Reading 0 is the master's, reading i + 1 that of channel i. */
  function FreezeUpTo(l: Levels, n: nat, id: nat, origT: nat, readings: seq<Reading>): Levels
    requires |readings| == |l.volumes| + 1
  {
    Levels(if n > 0 && |l.volumes| > 0 then FreezeParam(l.master, id, origT, readings[0]) else l.master,
           seq(|l.volumes|, i requires 0 <= i < |l.volumes| =>
             if i < n then FreezeParam(l.volumes[i], id, origT, readings[i + 1]) else l.volumes[i]))
  }

  function FreezeLevels(l: Levels, id: nat, origT: nat, readings: seq<Reading>): Levels
    requires |readings| == |l.volumes| + 1
  {
    FreezeUpTo(l, |l.volumes|, id, origT, readings)
  }

  // ---- the controller ----

  /** What a fade reports at `now`: the time since the last fade applied was to start. */
  function Info(rd: RunningData, now: nat): DurationInfoInt {
    DurationInfoInt(if rd.fd.start > now then 0 else now - rd.fd.start, rd.fd.start, Some(rd.params.dur))
  }

  datatype Target = NoAction | WrongType | NotRunning | Running(senders: seq<Engine.Sender>)

  /** `NoTarget` is the panic of unwrapping a target that was never set. */
  datatype FadeError = NoTarget | ActionMissing | ActionWrongType | TargetNotRunning | TimerFailed

  datatype Timeout = Empty | WaitingFor(nanos: nat)

  ghost function VolumeCells(senders: seq<Engine.Sender>): set<object> {
    set s | s in senders :: s.player.volume
  }

  ghost function MasterCells(senders: seq<Engine.Sender>): set<object> {
    if senders == [] then {} else {senders[0].player.master}
  }

  /** The cells of a cue's senders: one volume each, none of them the shared master. */
  ghost predicate ProperCue(senders: seq<Engine.Sender>) {
    && (forall i, j :: 0 <= i < j < |senders| ==> senders[i].player.volume != senders[j].player.volume)
    && (forall i :: 0 <= i < |senders| ==> senders[i].player.volume != senders[0].player.master)
  }

  ghost function LevelsOf(senders: seq<Engine.Sender>): (l: Levels)
    reads VolumeCells(senders), MasterCells(senders)
    ensures |l.volumes| == |senders|
    ensures forall i :: 0 <= i < |senders| ==> l.volumes[i] == senders[i].player.volume.param
    ensures senders != [] ==> l.master == senders[0].player.master.param
  {
    Levels(if senders == [] then Raw(0.0) else senders[0].player.master.param,
           seq(|senders|, i requires 0 <= i < |senders| reads VolumeCells(senders) =>
             assert senders[i] in senders; senders[i].player.volume.param))
  }

  ghost function TargetCells(target: Target): set<object> {
    match target
    case Running(senders) => VolumeCells(senders) + MasterCells(senders)
    case _ => {}
  }

  /** The levels of a target; blank ones for a target that does not run. */
  ghost function LevelsIn(target: Target): (l: Levels)
    reads TargetCells(target)
    ensures target.Running? ==> |l.volumes| == |target.senders|
  {
    match target
    case Running(senders) => LevelsOf(senders)
    case _ => Levels(Raw(0.0), [])
  }

  /** The fades are padded to the channels of the target the controller had before. */
  function Padded(p: FadeParams, targetChans: Option<nat>): (r: FadeParams)
    ensures r == p.(fades := r.fades) && p.fades <= r.fades
    ensures |r.fades| == if targetChans.Some? && targetChans.value > |p.fades| then targetChans.value else |p.fades|
    ensures forall i :: |p.fades| <= i < |r.fades| ==> r.fades[i] == (false, 0.0)
  {
    match targetChans
    case Some(n) => if n > |p.fades| then p.(fades := p.fades + seq(n - |p.fades|, _ => (false, 0.0))) else p
    case None => p
  }

  class FadeController {
    const dbLin: real -> real
    var params: FadeParams
    var timeout: Timeout
    var rd: Option<RunningData>

    constructor (dbLin: real -> real)
      ensures Valid() && rd == None && timeout == Empty && params == FadeParams(None, [], (false, 0.0), 0)
              && this.dbLin == dbLin
    {
      this.dbLin := dbLin;
      params, timeout, rd := FadeParams(None, [], (false, 0.0), 0), Empty, None;
    }

    /** Only a fade with a target ever gets running data, so freezing never unwraps a missing one. */
    ghost predicate Valid()
      reads this
    {
      rd.Some? ==> rd.value.params.target.Some?
    }

    method SetParams(p: FadeParams, targetChans: Option<nat>)
      modifies this`params
      ensures params == Padded(p, if old(params).target.Some? then targetChans else None)
    {
      var next := p;
      if params.target.Some? && targetChans.Some? && targetChans.value > |p.fades| {
        next := next.(fades := p.fades + seq(targetChans.value - |p.fades|, _ => (false, 0.0)));
      }
      params := next;
    }

    /** Applies one fade to a volume cell and remembers it. */
    method ApplyFade(fade: real, cell: VolumeCell, id: nat, time: nat, gt: nat)
      requires rd.Some?
      modifies this`rd, cell
      ensures
        var f := AppliedFade(old(cell.param), dbLin(fade), params.dur, time, gt, id);
        cell.param == LinearFade(f) && rd == Some(old(rd).value.(fd := f))
    {
      var vol := Get(cell.param, gt);
      var fd := new FadeDetails(vol, dbLin(fade), id);
      fd.SetDuration(params.dur);
      fd.StartFromTime(time);
      rd := Some(rd.value.(fd := fd.View()));
      cell.param := LinearFade(fd.View());
    }

    /** `now` is the clock after the fades were applied; `id` and `blank` are fresh identities. */
    method Execute(time: nat, target: Target, now: nat, id: nat, blank: nat, timerFails: bool)
      returns (r: Result<bool, FadeError>)
      requires Valid() && (target.Running? ==> ProperCue(target.senders))
      modifies this`rd, this`timeout, TargetCells(target)
      ensures Valid()
      ensures r == Err(NoTarget) <==> params.target.None?
      ensures params.target.None? || !target.Running? ==>
                r.Err? && r != Err(TimerFailed) && unchanged(this) && unchanged(TargetCells(target))
      ensures params.target.Some? && target.Running? ==>
                var l := old(LevelsOf(target.senders));
                var gt := if old(rd).Some? then old(rd).value.startTime else time;
                && LevelsOf(target.senders) == ExecuteLevels(l, params, dbLin, time, gt, id)
                && rd == Some(RunningData(params, time,
                                          LastFade(l, |params.fades|, params, dbLin, time, gt, id, blank)))
      ensures params.target.Some? && target.Running? ==>
                var left := time + params.dur - now;
                && (left <= 0 ==> r == Ok(true) && timeout == old(timeout))
                && (left > 0 && !timerFails ==> r == Ok(false) && timeout == WaitingFor(left))
                && (left > 0 && timerFails ==> r == Err(TimerFailed) && timeout == old(timeout))
    {
      hide ExecuteLevels, LastFade, LevelsOf, ProperCue;
      if params.target.None? {
        return Err(NoTarget);
      }
      match target
      case NoAction => return Err(ActionMissing);
      case WrongType => return Err(ActionWrongType);
      case NotRunning => return Err(TargetNotRunning);
      case Running(senders) =>
        var gt := if rd.Some? then rd.value.startTime else time;
        rd := Some(RunningData(params, time, BlankFade(blank)));
        ApplyFades(senders, time, gt, id, blank);
        r := StartTimer(time, now, timerFails);
    }

    lemma VolumesCount(senders: seq<Engine.Sender>)
      ensures |LevelsOf(senders).volumes| == |senders|
    {
    }

    method ApplyFades(senders: seq<Engine.Sender>, time: nat, gt: nat, id: nat, blank: nat)
      requires ProperCue(senders) && rd == Some(RunningData(params, time, BlankFade(blank)))
      modifies this`rd, VolumeCells(senders), MasterCells(senders)
      ensures
        var l := old(LevelsOf(senders));
        && LevelsOf(senders) == ExecuteLevels(l, params, dbLin, time, gt, id)
        && rd == Some(RunningData(params, time, LastFade(l, |params.fades|, params, dbLin, time, gt, id, blank)))
    {
      hide AppliedFade, Get, ExecuteUpTo, LastFade, LevelsOf;
      ghost var l := LevelsOf(senders);
      VolumesCount(senders);
      ApplyMaster(senders, time, gt, id, blank);
      var i := 0;
      while i < |params.fades|
        invariant i <= |params.fades|
        invariant LevelsOf(senders) == ExecuteUpTo(l, i, params, dbLin, time, gt, id)
        invariant rd == Some(RunningData(params, time, LastFade(l, i, params, dbLin, time, gt, id, blank)))
      {
        FadeStep(l, i, params, dbLin, time, gt, id, blank);
        if params.fades[i].0 && i < |senders| {
          ApplyVolume(senders, i, time, gt, id, l);
        }
        i := i + 1;
      }
    }

    method ApplyMaster(senders: seq<Engine.Sender>, time: nat, gt: nat, id: nat, blank: nat)
      requires ProperCue(senders) && rd == Some(RunningData(params, time, BlankFade(blank)))
      modifies this`rd, MasterCells(senders)
      ensures
        var l := old(LevelsOf(senders));
        && LevelsOf(senders) == ExecuteUpTo(l, 0, params, dbLin, time, gt, id)
        && rd == Some(RunningData(params, time, LastFade(l, 0, params, dbLin, time, gt, id, blank)))
    {
      ghost var l := LevelsOf(senders);
      if params.fadeMaster.0 {
        if |senders| > 0 {
          ApplyFade(params.fadeMaster.1, senders[0].player.master, id, time, gt);
        }
      }
      assert LevelsOf(senders).volumes == l.volumes;
    }

    method ApplyVolume(senders: seq<Engine.Sender>, i: nat, time: nat, gt: nat, id: nat, ghost l: Levels)
      requires ProperCue(senders) && i < |senders| && i < |params.fades| && params.fades[i].0
      requires rd.Some? && |l.volumes| == |senders|
      requires LevelsOf(senders) == ExecuteUpTo(l, i, params, dbLin, time, gt, id)
      modifies this`rd, senders[i].player.volume
      ensures LevelsOf(senders) == ExecuteUpTo(l, i + 1, params, dbLin, time, gt, id)
      ensures rd == Some(old(rd).value.(fd := AppliedFade(l.volumes[i], dbLin(params.fades[i].1), params.dur, time,
          gt, id)))
    {
      hide AppliedFade, Get;
      assert LevelsOf(senders).volumes[i] == l.volumes[i];
      ghost var before := LevelsOf(senders);
      ApplyFade(params.fades[i].1, senders[i].player.volume, id, time, gt);
      assert LevelsOf(senders) == before.(volumes := before.volumes[i := senders[i].player.volume.param]);
    }

    method StartTimer(time: nat, now: nat, timerFails: bool) returns (r: Result<bool, FadeError>)
      modifies this`timeout
      ensures
        var left := time + params.dur - now;
        && (left <= 0 ==> r == Ok(true) && timeout == old(timeout))
        && (left > 0 && !timerFails ==> r == Ok(false) && timeout == WaitingFor(left))
        && (left > 0 && timerFails ==> r == Err(TimerFailed) && timeout == old(timeout))
    {
      var positive := time > now;
      var delta := if positive then time - now else now - time;
      var dur :=
        if positive then params.dur + delta
        else if delta > params.dur then 0 else params.dur - delta;
      if dur > 0 {
        if timerFails {
          return Err(TimerFailed);
        }
        timeout := WaitingFor(dur);
        r := Ok(false);
      } else {
        r := Ok(true);
      }
    }

    method FreezeCell(cell: VolumeCell, fd: Param.Fade, origT: nat, r: Reading)
      modifies cell
      ensures cell.param == FreezeParam(old(cell.param), fd.id, origT, r)
    {
      var vol := cell.param;
      if vol.LinearFade? && vol.fade.id == fd.id {
        cell.param := TimedRaw(Get(vol, r.time), r.thresh + 1, Get(vol, origT));
      }
    }

    /** Succeeds, doing nothing, when there is no running data. */
    method FreezeSenders(target: Target, readings: seq<Reading>) returns (ok: bool)
      requires Valid()
      requires target.Running? ==> ProperCue(target.senders) && |readings| == |target.senders| + 1
      modifies TargetCells(target)
      ensures ok <==> rd.None? || target.Running?
      ensures target.Running? ==>
                LevelsOf(target.senders) ==
                  if rd.None? then old(LevelsOf(target.senders))
                  else FreezeLevels(old(LevelsOf(target.senders)), rd.value.fd.id, rd.value.startTime, readings)
    {
      if rd.None? {
        return true;
      }
      if !target.Running? {
        return false;
      }
      hide LevelsOf, FreezeUpTo, ProperCue;
      var senders := target.senders;
      ghost var l := LevelsOf(senders);
      VolumesCount(senders);
      NothingFrozen(l, rd.value.fd.id, rd.value.startTime, readings);
      var i := 0;
      while i < |senders|
        invariant i <= |senders|
        invariant LevelsOf(senders) == FreezeUpTo(l, i, rd.value.fd.id, rd.value.startTime, readings)
      {
        FreezeSender(senders, i, rd.value.fd, rd.value.startTime, readings, l);
        i := i + 1;
      }
      ok := true;
    }

    lemma NothingFrozen(l: Levels, id: nat, origT: nat, readings: seq<Reading>)
      requires |readings| == |l.volumes| + 1
      ensures FreezeUpTo(l, 0, id, origT, readings) == l
    {
      assert FreezeUpTo(l, 0, id, origT, readings).volumes == l.volumes;
    }

    /** The first sender also carries the master. */
    method FreezeSender(senders: seq<Engine.Sender>, i: nat, fd: Param.Fade, origT: nat, readings: seq<Reading>,
                        ghost l: Levels)
      requires ProperCue(senders) && i < |senders| == |l.volumes| && |readings| == |senders| + 1
      requires LevelsOf(senders) == FreezeUpTo(l, i, fd.id, origT, readings)
      modifies senders[i].player.volume, senders[0].player.master
      ensures LevelsOf(senders) == FreezeUpTo(l, i + 1, fd.id, origT, readings)
    {
      hide FreezeParam;
      assert LevelsOf(senders).volumes[i] == l.volumes[i];
      ghost var before := LevelsOf(senders);
      if i == 0 {
        FreezeCell(senders[0].player.master, fd, origT, readings[0]);
      }
      FreezeCell(senders[i].player.volume, fd, origT, readings[i + 1]);
      assert LevelsOf(senders).volumes == before.volumes[i := senders[i].player.volume.param];
    }

    method Pause(target: Target, readings: seq<Reading>) returns (paused: bool)
      requires Valid()
      requires target.Running? ==> ProperCue(target.senders) && |readings| == |target.senders| + 1
      modifies this`timeout, TargetCells(target)
      ensures paused <==> rd.None? || target.Running?
      ensures timeout == if paused then Empty else old(timeout)
      ensures target.Running? ==>
                LevelsOf(target.senders) ==
                  if rd.None? then old(LevelsOf(target.senders))
                  else FreezeLevels(old(LevelsOf(target.senders)), rd.value.fd.id, rd.value.startTime, readings)
    {
      paused := FreezeSenders(target, readings);
      if paused {
        timeout := Empty;
      }
    }

    method Reset(target: Target, readings: seq<Reading>)
      requires Valid()
      requires target.Running? ==> ProperCue(target.senders) && |readings| == |target.senders| + 1
      modifies this`timeout, this`rd, TargetCells(target)
      ensures Valid() && timeout == Empty && rd == None
      ensures target.Running? ==>
                LevelsOf(target.senders) ==
                  if old(rd).None? then old(LevelsOf(target.senders))
                  else FreezeLevels(old(LevelsOf(target.senders)), old(rd).value.fd.id, old(rd).value.startTime,
                                    readings)
    {
      timeout := Empty;
      var _ := FreezeSenders(target, readings);
      rd := None;
    }
  }
}
