/** The playback state machine of an action, over an audio or a fade controller. */
module Playback {
  import opened Containers
  import opened PlaybackTime
  import opened Audio
  import Engine
  import Fade
  import opened Param
  import Player

  datatype PlaybackState =
    | Inactive
    | Unverified(errors: seq<ParameterError>)
    | Loaded
    | Loading
    | Paused(info: Option<DurationInfo>)
    | Active(info: Option<DurationInfo>)
    | Errored(message: string)

  datatype ActionMetadata = ActionMetadata(name: Option<string>, prewait: nat, number: Option<string>)

  datatype ActionType = AudioType(audio: AudioController) | FadeType(fade: Fade.FadeController)

  datatype ActionParameters = AudioPars(audio: AudioParams) | FadePars(fade: Fade.FadeParams)

  /** `Panicked` is a fade executed without a target. */
  datatype ActionError = WrongState | WrongParameters | Panicked

  // ---- verification of a fade ----

  /** The fold over the channel fades, as written: it starts from true. */
  function NothingFadedFold(fades: seq<(bool, real)>, acc: bool): bool {
    if fades == [] then acc
    else NothingFadedFold(fades[1..], if fades[0].0 && !acc then true else acc)
  }

  function VerifyFade(params: Fade.FadeParams, target: Fade.Target): seq<ParameterError> {
    (if params.target.None? || target.NoAction? || target.WrongType? then [FadeTarget] else [])
    + (if !params.fadeMaster.0 && NothingFadedFold(params.fades, true) then [NothingFaded] else [])
  }

  lemma {:induction false} FoldStaysTrue(fades: seq<(bool, real)>)
    ensures NothingFadedFold(fades, true)
  {
    if fades != [] {
      FoldStaysTrue(fades[1..]);
    }
  }

  /** A fade verifies exactly when it has an audio target and fades the master; enabled channel fades
      alone are reported as nothing being faded. */
  lemma FadeVerifiesIffMaster(params: Fade.FadeParams, target: Fade.Target)
    ensures VerifyFade(params, target) == [] <==>
            params.fadeMaster.0 && params.target.Some? && (target.Running? || target.NotRunning?)
    ensures FadeTarget in VerifyFade(params, target) <==>
            !(params.target.Some? && (target.Running? || target.NotRunning?))
    ensures NothingFaded in VerifyFade(params, target) <==> !params.fadeMaster.0
  {
    FoldStaysTrue(params.fades);
  }

  // ---- the action ----

  predicate HoldsSenders(s: PlaybackState) {
    s.Loading? || s.Loaded? || s.Active? || s.Paused?
  }

  predicate HoldsNothing(s: PlaybackState) {
    s.Inactive? || s.Unverified?
  }

  ghost predicate WorldOk(w: World) {
    w.fadeTarget.Running? ==> Fade.ProperCue(w.fadeTarget.senders) && |w.readings| == |w.fadeTarget.senders| + 1
  }

  /** One sender per channel of the file, at its rate. */
  predicate HasRate(senders: seq<Engine.Sender>, file: FileState)
    requires file.Opened?
  {
    |senders| == file.channels && forall i :: 0 <= i < |senders| ==> senders[i].sampleRate == file.rate
  }

  class Action {
    var state: PlaybackState
    const ctl: ActionType
    var meta: ActionMetadata
    var startAsap: bool

    constructor (ctl: ActionType)
      requires match ctl case AudioType(a) => a.Valid() && a.rd.None? case FadeType(f) => f.Valid()
      ensures Valid() && state == Inactive && this.ctl == ctl && meta == ActionMetadata(None, 0, None)
    {
      this.ctl := ctl;
      state, meta, startAsap := Inactive, ActionMetadata(None, 0, None), false;
    }

    ghost function Controller(): set<object> {
      match ctl case AudioType(a) => {a} case FadeType(f) => {f}
    }

    /** A loaded, playing or paused audio action holds at least one sender; an inactive or unverified
        one holds none. */
    ghost predicate Valid()
      reads this, Controller()
    {
      match ctl
      case AudioType(a) =>
        && a.Valid()
        && (HoldsSenders(state) ==> a.rd.Some? && |a.rd.value.senders| >= 1)
        && (HoldsNothing(state) ==> a.rd.None?)
      case FadeType(f) => f.Valid()
    }

    ghost function Owned(w: World): set<object>
      reads Controller()
    {
      match ctl
      case AudioType(a) =>
        {a, w.engine.control} + (if a.rd.Some? then Players(a.rd.value.senders) + Fade.VolumeCells(a.rd.value.senders)
                                 else {})
      case FadeType(f) => {f} + Fade.TargetCells(w.fadeTarget)
    }

    function Verdict(w: World): seq<ParameterError>
      reads Controller()
    {
      match ctl
      case AudioType(a) => a.Verify(w.mixer)
      case FadeType(f) => VerifyFade(f.params, w.fadeTarget)
    }

    predicate Measurable()
      reads Controller()
    {
      ctl.AudioType? ==>
        (ctl.audio.rd.Some? ==> ctl.audio.rd.value.senders != [] && ctl.audio.rd.value.senders[0].sampleRate > 0)
    }

    /** What the controller reports; a fade reports from the last fade applied. */
    ghost function Progress(now: nat): Option<DurationInfo>
      requires Valid() && Measurable()
      reads this, Controller(), if ctl.AudioType? && ctl.audio.rd.Some? then Players(ctl.audio.rd.value.senders) else {}
    {
      match ctl
      case AudioType(a) =>
        (match a.Info() case None => None case Some(i) => Some(FromInt(i, now)))
      case FadeType(f) =>
        (match f.rd
         case None => None
         case Some(rd) => Some(FromInt(Fade.Info(rd, now), now)))
    }

    /** What is reported of a cue or a fade that runs: the wait left, or the time since its start, for a cue
        in whole milliseconds of its first sender's position. */
    lemma ProgressShows(now: nat)
      requires Valid() && Measurable()
      ensures match ctl
              case AudioType(a) =>
                if a.rd.None? then Progress(now) == None
                else
                  var first := a.rd.value.senders[0];
                  first.sampleRate > 0
                  && Progress(now) == Some(
                       if a.rd.value.startTime > now then
                         DurationInfo(a.rd.value.startTime - now, false, Some(a.rd.value.est))
                       else
                         DurationInfo(first.player.position * 1000 / first.sampleRate * 1_000_000, true,
                                      Some(a.rd.value.est)))
              case FadeType(f) =>
                if f.rd.None? then Progress(now) == None
                else
                  var start, dur := f.rd.value.fd.start, f.rd.value.params.dur;
                  Progress(now) == Some(if start > now then DurationInfo(start - now, false, Some(dur))
                                        else DurationInfo(now - start, true, Some(dur)))
    {
    }

    method DurationInfoNow(now: nat) returns (info: Option<DurationInfo>)
      requires Valid() && Measurable()
      ensures info == Progress(now)
    {
      match ctl
      case AudioType(a) =>
        var i := a.Info();
        info := match i case None => None case Some(v) => Some(FromInt(v, now));
      case FadeType(f) =>
        match f.rd {
          case None => info := None;
          case Some(rd) =>
            var start := rd.fd.start;
            var delta := if start > now then 0 else now - start;
            info := Some(FromInt(DurationInfoInt(delta, start, Some(rd.params.dur)), now));
        }
    }

    method VerifyParams(w: World)
      requires Valid() && (state.Active? ==> Measurable())
      modifies this`state
      ensures Valid()
      ensures state ==
                if old(state).Inactive? || old(state).Unverified? then
                  (if Verdict(w) == [] then Inactive else Unverified(Verdict(w)))
                else if old(state).Active? then Active(old(Progress(w.now)))
                else old(state)
    {
      if HoldsNothing(state) {
        var errors;
        match ctl {
          case AudioType(a) => errors := a.Verify(w.mixer);
          case FadeType(f) => errors := VerifyFade(f.params, w.fadeTarget);
        }
        state := if |errors| == 0 then Inactive else Unverified(errors);
      } else if state.Active? {
        var info := DurationInfoNow(w.now);
        state := Active(info);
      }
    }

    /** Parameters of the wrong kind are refused; the state waits for the next verification. */
    method SetParams(data: ActionParameters, s: Surroundings) returns (r: Result<(), ActionError>)
      requires Valid()
      requires data.AudioPars? ==>
                 (s.parsed.Some? <==> data.audio.url.Some?) && (s.media.NoFile? <==> s.parsed != Some(true))
      modifies Controller()
      modifies if ctl.AudioType? && ctl.audio.rd.Some? then
                 Fade.VolumeCells(ctl.audio.rd.value.senders) + Fade.MasterCells(ctl.audio.rd.value.senders)
               else {}
      ensures Valid()
      ensures r.Ok? <==> (data.AudioPars? <==> ctl.AudioType?)
      ensures match ctl
              case AudioType(a) =>
                && a.rd == old(a.rd)
                && a.params == (if r.Ok? then NormalisedAudio(old(a.params), data.audio, s) else old(a.params))
                && a.url == (if r.Ok? && old(a.params).url != data.audio.url then s.parsed else old(a.url))
                && a.file == (if r.Ok? && old(a.params).url != data.audio.url then s.media else old(a.file))
                && (a.rd.Some? ==>
                      ViewsOf(a.rd.value.senders) ==
                        if r.Ok? then LevelledViews(old(ViewsOf(a.rd.value.senders)), a.params, a.dbLin)
                        else old(ViewsOf(a.rd.value.senders)))
              case FadeType(f) =>
                && f.rd == old(f.rd) && f.timeout == old(f.timeout)
                && f.params == (if r.Ok?
                                then Fade.Padded(data.fade, if old(f.params).target.Some? then s.targetChans else None)
                                else old(f.params))
    {
      match (ctl, data) {
        case (AudioType(a), AudioPars(p)) => a.SetParams(p, s);
        case (FadeType(f), FadePars(p)) => f.SetParams(p, s.targetChans);
        case _ => return Err(WrongParameters);
      }
      r := Ok(());
    }

    /** A cue that was loaded from `file` and not started: new streams, patched as configured. */
    ghost predicate JustLoaded(file: FileState, w: World)
      requires ctl.AudioType? && file.Opened?
      reads Controller(), if ctl.audio.rd.Some? then StreamCells(ctl.audio.rd.value.senders) else {}
    {
      var a := ctl.audio;
      && a.file == w.reopened
      && a.rd.Some? && a.rd.value.startTime == 0 && a.rd.value.est == file.duration
      && HasRate(a.rd.value.senders, file)
      && ViewsOf(a.rd.value.senders) == LoadedViews(FirstIds(w.uuids, file.channels), a.params.chans, w.mixer)
    }

    /** Loads from Inactive only, after verifying. What verifies always loads. */
    method Load(w: World) returns (r: Result<(), ActionError>)
      requires Valid() && (state.Active? ==> Measurable())
      modifies this`state, Controller(), if ctl.AudioType? then {w.engine.control} else {}
      ensures Valid()
      ensures r.Ok? <==> (old(state).Inactive? || old(state).Unverified?) && old(Verdict(w)) == []
      ensures r.Ok? ==> state == Loaded
      ensures r.Err? ==> r == Err(WrongState)
      ensures r.Err? ==>
                state == if old(state).Inactive? || old(state).Unverified? then Unverified(old(Verdict(w)))
                         else if old(state).Active? then Active(old(if Measurable() then Progress(w.now) else None))
                           else old(state)
      ensures ctl.AudioType? && r.Ok? ==>
                && old(ctl.audio.file).Opened? && JustLoaded(old(ctl.audio.file), w)
                && fresh(Players(ctl.audio.rd.value.senders)) && fresh(Fade.VolumeCells(ctl.audio.rd.value.senders))
                && w.engine.control.items == old(w.engine.control.items) + Announced(ctl.audio.rd.value.senders)
      ensures ctl.AudioType? && r.Ok? ==>
                PatchedAsConfigured(ctl.audio.rd.value.senders, ctl.audio.params.chans, w.mixer)
      ensures ctl.AudioType? ==> ctl.audio.params == old(ctl.audio.params) && ctl.audio.url == old(ctl.audio.url)
      ensures r.Err? || ctl.FadeType? ==> unchanged(Controller()) && unchanged(old(Owned(w)))
    {
      hide Progress, Measurable, VerifyFade, VerifyAudio, ViewsOf, LoadedViews, FirstIds, Announced,
        PatchedAsConfigured, Fade.ProperCue, NewView;
      VerifyParams(w);
      if !state.Inactive? {
        return Err(WrongState);
      }
      match ctl
      case AudioType(a) =>
        VerifiedMeansLoadable(a.params, a.url, a.file, w.mixer);
        var loaded := a.Load(w);
        match loaded {
          case Err(_) =>
            assert false;
          case Ok(complete) =>
            state := if complete then Loaded else Loading;
        }
        r := Ok(());
      case FadeType(f) =>
        state := Loaded;
        r := Ok(());
    }

    /** Pausing keeps the progress only if the action was playing; it succeeds for a fade that keeps
        nothing, and fails for one whose target has stopped. */
    method Pause(w: World)
      requires Valid() && WorldOk(w) && (state.Active? ==> Measurable())
      modifies this`state, Owned(w)
      ensures Valid()
      ensures
        var pauses := old(match ctl case AudioType(a) => a.rd.Some?
                          case FadeType(f) => f.rd.None? || w.fadeTarget.Running?);
        state == if pauses then Paused(old(if state.Active? && Measurable() then Progress(w.now) else None))
          else old(state)
      ensures ctl.AudioType? ==>
                && ctl.audio.rd == old(ctl.audio.rd) && ctl.audio.params == old(ctl.audio.params)
                && ctl.audio.file == old(ctl.audio.file) && ctl.audio.url == old(ctl.audio.url)
                && (ctl.audio.rd.Some? ==>
                      ViewsOf(ctl.audio.rd.value.senders) == PausedViews(old(ViewsOf(ctl.audio.rd.value.senders))))
      ensures ctl.FadeType? ==>
                && ctl.fade.rd == old(ctl.fade.rd) && ctl.fade.params == old(ctl.fade.params)
                && ctl.fade.timeout == if ctl.fade.rd.None? || w.fadeTarget.Running? then Fade.Empty
                     else old(ctl.fade.timeout)
      ensures ctl.FadeType? && w.fadeTarget.Running? ==>
                Fade.LevelsIn(w.fadeTarget) ==
                  if old(ctl.fade.rd).None? then old(Fade.LevelsIn(w.fadeTarget))
                  else Fade.FreezeLevels(old(Fade.LevelsIn(w.fadeTarget)), old(ctl.fade.rd).value.fd.id,
                                         old(ctl.fade.rd).value.startTime, w.readings)
    {
      hide Fade.FreezeLevels, Fade.LevelsOf, Fade.ProperCue, ViewsOf;
      var info := None;
      if state.Active? {
        info := DurationInfoNow(w.now);
      }
      var paused;
      match ctl {
        case AudioType(a) => paused := a.Pause();
        case FadeType(f) => paused := f.Pause(w.fadeTarget, w.readings);
      }
      if paused {
        state := Paused(info);
      }
    }

    method Reset(w: World)
      requires Valid() && WorldOk(w)
      modifies this`state, Owned(w)
      ensures Valid() && state == Inactive
      ensures match ctl
              case AudioType(a) => a.rd == None && a.params == old(a.params)
              case FadeType(f) => f.rd == None && f.params == old(f.params) && f.timeout == Fade.Empty
      ensures ctl.FadeType? && w.fadeTarget.Running? ==>
                Fade.LevelsIn(w.fadeTarget) ==
                  if old(ctl.fade.rd).None? then old(Fade.LevelsIn(w.fadeTarget))
                  else Fade.FreezeLevels(old(Fade.LevelsIn(w.fadeTarget)), old(ctl.fade.rd).value.fd.id,
                                         old(ctl.fade.rd).value.startTime, w.readings)
    {
      match ctl {
        case AudioType(a) => a.Reset();
        case FadeType(f) => f.Reset(w.fadeTarget, w.readings);
      }
      state := Inactive;
    }

    /** Where an execution at `now` starts the action. */
    function ScheduledTime(now: nat): int
      reads this
    {
      StartTime(if state.Paused? then state.info else None, now, meta.prewait)
    }

    /** With progress kept the action goes on from there; without, it waits for its pre-wait. */
    lemma ScheduledAt(now: nat)
      ensures ScheduledTime(now) ==
              if state.Paused? && state.info.Some? then
                if state.info.value.pos then now - state.info.value.elapsed else now + state.info.value.elapsed
              else now + meta.prewait
    {
    }

    /** An audio cue that kept `was` and is started at `time`: its streams run on from where they were. */
    ghost predicate AudioBegun(time: int, was: AudioRunning, views: seq<Player.PlayerState>)
      requires ctl.AudioType?
      reads this, Controller(), StreamCells(was.senders)
    {
      var a := ctl.audio;
      && time >= 0
      && state == Active(None)
      && a.rd == Some(was.(startTime := time))
      && ViewsOf(was.senders) == StartedViews(views, time, was.startTime == 0, a.params, a.dbLin)
    }

    /** A cue loaded and started in one go plays from its beginning. */
    ghost predicate FreshlyBegun(time: nat, file: FileState, w: World)
      requires ctl.AudioType? && file.Opened?
      reads this, Controller(), if ctl.audio.rd.Some? then StreamCells(ctl.audio.rd.value.senders) else {}
    {
      var a := ctl.audio;
      && state == Active(None)
      && a.file == w.reopened
      && a.rd.Some? && a.rd.value.startTime == time && a.rd.value.est == file.duration
      && HasRate(a.rd.value.senders, file)
      && ViewsOf(a.rd.value.senders) ==
         StartedViews(LoadedViews(FirstIds(w.uuids, file.channels), a.params.chans, w.mixer), time, true, a.params,
                      a.dbLin)
    }

    /** The outcome of executing a fade at `time` that kept `was`, on a target whose levels were l. A timer is
        set only if there is something left to wait for. */
    ghost predicate FadeBegun(time: int, w: World, was: Option<Fade.RunningData>, timer: Fade.Timeout, l: Fade.Levels)
      requires ctl.FadeType?
      reads this, Controller(), Fade.TargetCells(w.fadeTarget)
    {
      var f := ctl.fade;
      && time >= 0
      && (state == Active(None) <==> w.fadeTarget.Running? && time + f.params.dur > w.now && !w.timerFails)
      && (state == Inactive <==> w.fadeTarget.Running? && time + f.params.dur <= w.now)
      && (state.Active? || state.Inactive? || state.Errored?)
      && (w.fadeTarget.Running? ==>
            var gt := if was.Some? then was.value.startTime else time;
            && Fade.LevelsIn(w.fadeTarget) == Fade.ExecuteLevels(l, f.params, f.dbLin, time, gt, w.id)
            && f.rd == Some(Fade.RunningData(f.params, time,
                                             Fade.LastFade(l, |f.params.fades|, f.params, f.dbLin, time, gt, w.id,
                                                           w.blank))))
      && (!w.fadeTarget.Running? ==> f.rd == was)
      && f.timeout == if state == Active(None) then Fade.WaitingFor(time + f.params.dur - w.now) else timer
    }

    /** Hands over to the controller; the outcome decides the state. False is the panic of a fade
        without a target, which leaves everything as it was. */
    method Begin(time: nat, w: World, ghost file: FileState) returns (ok: bool)
      requires Valid() && WorldOk(w) && (ctl.AudioType? ==> ctl.audio.rd.Some?)
      modifies this`state, Owned(w)
      ensures Valid()
      ensures ok <==> (ctl.FadeType? ==> ctl.fade.params.target.Some?)
      ensures !ok ==> unchanged(this) && unchanged(old(Owned(w)))
      ensures match ctl
              case AudioType(a) => a.params == old(a.params) && a.url == old(a.url) && a.file == old(a.file)
              case FadeType(f) => f.params == old(f.params)
      ensures ctl.AudioType? ==>
                && AudioBegun(time, old(ctl.audio.rd).value, old(ViewsOf(ctl.audio.rd.value.senders)))
                && ctl.audio.rd.Some? && ctl.audio.rd.value.senders == old(ctl.audio.rd.value.senders)
                && w.engine.control.items == old(w.engine.control.items)
      ensures ctl.AudioType? && file.Opened? && old(JustLoaded(file, w)) ==> FreshlyBegun(time, file, w)
      ensures ctl.FadeType? && ok ==>
                FadeBegun(time, w, old(ctl.fade.rd), old(ctl.fade.timeout), old(Fade.LevelsIn(w.fadeTarget)))
    {
      ok := true;
      match ctl
      case AudioType(a) =>
        a.Execute(time);
        state := Active(None);
      case FadeType(f) =>
        var r := f.Execute(time, w.fadeTarget, w.now, w.id, w.blank, w.timerFails);
        match r {
          case Err(NoTarget) => ok := false;
          case Err(_) => state := Errored("execution failed");
          case Ok(finished) => state := if finished then Inactive else Active(None);
        }
    }

    /** A paused or loaded fade whose target is not set: executing it panics. */
    predicate Targetless()
      reads this, Controller()
    {
      ctl.FadeType? && ctl.fade.params.target.None? && (state.Loaded? || state.Paused?)
    }

    /** n streams, empty and at their beginning, due at `time`, patched and levelled as configured. */
    ghost predicate PlaysFromStart(time: nat, n: nat, w: World)
      requires ctl.AudioType?
      reads Controller(), if ctl.audio.rd.Some? then StreamCells(ctl.audio.rd.value.senders) else {}
    {
      var a := ctl.audio;
      a.rd.Some? && |a.rd.value.senders| == n
      && PatchedAsConfigured(a.rd.value.senders, a.params.chans, w.mixer)
      && forall i :: 0 <= i < n ==>
           var v := (assert a.rd.value.senders[i] in a.rd.value.senders; a.rd.value.senders[i].player.View());
           && v.buf == [] && v.position == 0 && v.active && v.startTime == time
           && v.uuid == w.uuids(i) && v.master == Raw(1.0)
           && v.volume == Raw(if i < |a.params.chans| then a.dbLin(a.params.chans[i].vol) else 1.0)
    }

    lemma FreshCue(time: nat, file: FileState, w: World)
      requires ctl.AudioType? && file.Opened? && FreshlyBegun(time, file, w) && Valid()
      requires PatchesExist(ctl.audio.params.chans, |ctl.audio.params.chans|, w.mixer)
      ensures file.rate > 0 ==> Measurable()
      ensures PlaysFromStart(time, file.channels, w)
    {
      var a := ctl.audio;
      var loaded := LoadedViews(FirstIds(w.uuids, file.channels), a.params.chans, w.mixer);
      assert forall i :: 0 <= i < file.channels ==>
               && ViewsOf(a.rd.value.senders)[i] == a.rd.value.senders[i].player.View()
               && loaded[i] == NewView(PatchFor(a.params.chans, i, w.mixer), w.uuids(i));
    }

    /** What one round of an execution does; None asks for another. */
    method Round(w: World, ghost file: FileState) returns (r: Option<Result<(), ActionError>>)
      requires Valid() && WorldOk(w)
      requires state.Loaded? || state.Paused? ==> ScheduledTime(w.now) >= 0
      modifies this`state, this`startAsap, Controller(), Owned(w)
      modifies if ctl.AudioType? then {w.engine.control} else {}
      ensures Valid()
      ensures r.None? <==> old(state).Inactive? && old(Verdict(w)) == []
      ensures r == Some(Err(Panicked)) <==> old(Targetless())
      ensures r.Some? ==> (r.value.Ok? <==> HoldsSenders(old(state)) && !old(Targetless()))
      ensures r.None? ==> state == Loaded
      ensures r.Some? && r.value.Err? ==>
                state == if old(state).Inactive? then Unverified(old(Verdict(w))) else old(state)
      ensures old(state).Loading? || old(state).Active? || (r.Some? && r.value.Err?) ==>
                unchanged(Controller()) && unchanged(old(Owned(w)))
      ensures old(state).Loading? || old(state).Active? ==> state == old(state)
      ensures startAsap == (old(startAsap) || old(state).Loading?)
      ensures match ctl
              case AudioType(a) => a.params == old(a.params) && a.url == old(a.url)
                && (r.Some? ==> a.file == old(a.file))
              case FadeType(f) => f.params == old(f.params)
      ensures ctl.AudioType? && r.None? ==>
                && old(ctl.audio.file).Opened? && JustLoaded(old(ctl.audio.file), w)
                && fresh(Players(ctl.audio.rd.value.senders)) && fresh(Fade.VolumeCells(ctl.audio.rd.value.senders))
                && w.engine.control.items == old(w.engine.control.items) + Announced(ctl.audio.rd.value.senders)
      ensures ctl.AudioType? && (old(state).Loaded? || old(state).Paused?) ==>
                && AudioBegun(old(ScheduledTime(w.now)), old(ctl.audio.rd).value,
                              old(ViewsOf(ctl.audio.rd.value.senders)))
                && ctl.audio.rd.Some? && ctl.audio.rd.value.senders == old(ctl.audio.rd.value.senders)
                && w.engine.control.items == old(w.engine.control.items)
      ensures ctl.AudioType? && old(state).Loaded? && file.Opened? && old(JustLoaded(file, w)) ==>
                FreshlyBegun(old(ScheduledTime(w.now)), file, w)
      ensures ctl.FadeType? && r.None? ==>
                ctl.fade.params.target.Some? && unchanged(Controller()) && unchanged(old(Owned(w)))
      ensures ctl.FadeType? && (old(state).Loaded? || old(state).Paused?) && !old(Targetless()) ==>
                FadeBegun(old(ScheduledTime(w.now)), w, old(ctl.fade.rd), old(ctl.fade.timeout),
                          old(Fade.LevelsIn(w.fadeTarget)))
    {
      hide FadeBegun, Fade.LevelsIn, AudioBegun, VerifyAudio, Progress, Measurable, Fade.ProperCue, ViewsOf,
        Fade.LevelsOf, JustLoaded, FreshlyBegun, StreamCells, Announced, PatchedAsConfigured;
      if state.Loading? {
        startAsap := true;
        r := Some(Ok(()));
      } else if state.Loaded? || state.Paused? {
        var ok := Begin(ScheduledTime(w.now), w, file);
        r := Some(if ok then Ok(()) else Err(Panicked));
      } else if state.Active? {
        r := Some(Ok(()));
      } else if state.Inactive? {
        if ctl.FadeType? {
          FadeVerifiesIffMaster(ctl.fade.params, w.fadeTarget);
        }
        var loaded := Load(w);
        r := if loaded.Ok? then None else Some(loaded);
      } else {
        r := Some(Err(WrongState));
      }
    }

    /** Executing loads at most once: an inactive action is loaded and goes round the loop again,
        which then always ends. The pre-wait or what is left of the pause moves the start time. */
    method Execute(w: World) returns (r: Result<(), ActionError>)
      requires Valid() && WorldOk(w)
      requires state.Loaded? || state.Paused? ==> ScheduledTime(w.now) >= 0
      modifies this`state, this`startAsap, Controller(), Owned(w)
      modifies if ctl.AudioType? then {w.engine.control} else {}
      ensures Valid()
      ensures r == Err(Panicked) <==>
                old(ctl.FadeType? && ctl.fade.params.target.None? && (state.Loaded? || state.Paused?))
      ensures r.Ok? <==>
                || ((old(state).Loading? || old(state).Loaded? || old(state).Active? || old(state).Paused?)
                    && !old(Targetless()))
                || (old(state).Inactive? && old(Verdict(w)) == [])
      ensures r.Err? ==> state == if old(state).Inactive? then Unverified(old(Verdict(w))) else old(state)
      ensures r.Err? || old(state).Loading? || old(state).Active? ==>
                unchanged(Controller()) && unchanged(old(Owned(w)))
      ensures old(state).Loading? || old(state).Active? ==> state == old(state)
      ensures startAsap == (old(startAsap) || old(state).Loading?)
      ensures match ctl
              case AudioType(a) => a.params == old(a.params) && a.url == old(a.url)
              case FadeType(f) => f.params == old(f.params)
      ensures ctl.AudioType? && r.Ok? && old(state).Inactive? ==>
                && old(ctl.audio.file).Opened? && FreshlyBegun(w.now + meta.prewait, old(ctl.audio.file), w)
                && w.engine.control.items == old(w.engine.control.items) + Announced(ctl.audio.rd.value.senders)
                && (old(ctl.audio.file).rate > 0 ==> Measurable())
      ensures ctl.AudioType? && r.Ok? && old(state).Inactive? ==>
                PlaysFromStart(w.now + meta.prewait, old(ctl.audio.file).channels, w)
      ensures ctl.AudioType? && (old(state).Loaded? || old(state).Paused?) ==>
                && AudioBegun(old(ScheduledTime(w.now)), old(ctl.audio.rd).value,
                              old(ViewsOf(ctl.audio.rd.value.senders)))
                && ctl.audio.file == old(ctl.audio.file) && w.engine.control.items == old(w.engine.control.items)
      ensures ctl.FadeType? && r.Ok? && !old(state).Loading? && !old(state).Active? ==>
                FadeBegun(if old(state).Inactive? then w.now + meta.prewait else old(ScheduledTime(w.now)),
                          w, old(ctl.fade.rd), old(ctl.fade.timeout), old(Fade.LevelsIn(w.fadeTarget)))
    {
      hide FadeBegun, Fade.LevelsIn, VerifyFade, VerifyAudio, Progress, Measurable, Fade.ProperCue, ViewsOf,
        Fade.LevelsOf,
        JustLoaded, FreshlyBegun, AudioBegun, StreamCells, Announced, PlaysFromStart, PatchesExist,
        PatchedAsConfigured;
      ghost var file := if ctl.AudioType? then ctl.audio.file else NoFile;
      ghost var again := false;
      while true
        invariant Valid() && startAsap == old(startAsap)
        invariant if again then old(state).Inactive? && old(Verdict(w)) == [] && state == Loaded
                  else unchanged(this) && unchanged(Controller()) && unchanged(old(Owned(w)))
        invariant again && ctl.AudioType? ==>
                    && ctl.audio.params == old(ctl.audio.params) && ctl.audio.url == old(ctl.audio.url)
                    && old(ctl.audio.file).Opened? && JustLoaded(old(ctl.audio.file), w)
                    && fresh(Players(ctl.audio.rd.value.senders)) && fresh(Fade.VolumeCells(ctl.audio.rd.value.senders))
                    && w.engine.control.items == old(w.engine.control.items) + Announced(ctl.audio.rd.value.senders)
        invariant !again && ctl.AudioType? && ctl.audio.rd.Some? ==>
                    ViewsOf(ctl.audio.rd.value.senders) == old(ViewsOf(ctl.audio.rd.value.senders))
        invariant again && ctl.AudioType? ==>
                    PatchesExist(ctl.audio.params.chans, |ctl.audio.params.chans|, w.mixer)
        invariant again && ctl.FadeType? ==>
                    ctl.fade.params.target.Some? && unchanged(Controller()) && unchanged(old(Owned(w)))
        decreases if state.Inactive? then 1 else 0
      {
        var outcome := Round(w, file);
        if outcome.Some? {
          if again && ctl.AudioType? {
            FreshCue(w.now + meta.prewait, file, w);
          }
          return outcome.value;
        }
        if ctl.AudioType? {
          VerifiedMeansLoadable(ctl.audio.params, ctl.audio.url, file, w.mixer);
        }
        again := true;
      }
    }

    /** A change asked for from outside. An error is always accepted, going inactive is a reset. */
    method StateChange(ps: PlaybackState, w: World) returns (r: Result<(), ActionError>)
      requires Valid() && WorldOk(w)
      modifies this`state, Owned(w)
      ensures Valid()
      ensures r.Ok? <==>
                || ps.Errored?
                || ((old(state).Loading? || old(state).Loaded? || old(state).Active? || old(state).Paused?)
                    && !ps.Unverified?)
      ensures state == if r.Ok? then ps else old(state)
      ensures r.Ok? && ps.Inactive? ==>
                match ctl
                case AudioType(a) => a.rd == None && a.params == old(a.params)
                case FadeType(f) => f.rd == None && f.params == old(f.params) && f.timeout == Fade.Empty
      ensures r.Ok? && ps.Inactive? && ctl.FadeType? && w.fadeTarget.Running? ==>
                Fade.LevelsIn(w.fadeTarget) ==
                  if old(ctl.fade.rd).None? then old(Fade.LevelsIn(w.fadeTarget))
                  else Fade.FreezeLevels(old(Fade.LevelsIn(w.fadeTarget)), old(ctl.fade.rd).value.fd.id,
                                         old(ctl.fade.rd).value.startTime, w.readings)
      ensures !(r.Ok? && ps.Inactive?) ==> unchanged(Controller()) && unchanged(old(Owned(w)))
    {
      if !ps.Errored? {
        if !HoldsSenders(state) {
          return Err(WrongState);
        }
        match ps {
          case Inactive =>
            Reset(w);
            return Ok(());
          case Unverified(_) => return Err(WrongState);
          case _ =>
        }
      }
      state := ps;
      r := Ok(());
    }
  }
}
