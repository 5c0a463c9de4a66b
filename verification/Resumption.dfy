/** Pausing and executing again a real action: what the two calls together do to the senders. */
module Resumption {
  import opened Containers
  import opened PlaybackTime
  import opened Audio
  import opened Playback
  import opened FadeCurve
  import Engine
  import Fade
  import Param
  import Player

  function FadeCycle(p: World, q: World, params: Fade.FadeParams): Cycle {
    Cycle(p.now, p.readings, q.now, params, q.id, q.blank)
  }

  /** The levels of a fade's target and what the fade remembers. */
  ghost function RunOf(f: Fade.FadeController, w: World): FadeRun
    requires f.rd.Some?
    reads f, Fade.TargetCells(w.fadeTarget)
  {
    FadeRun(Fade.LevelsIn(w.fadeTarget), f.rd.value)
  }

  /** Pausing a playing fade and executing it again is exactly one cycle of its curve. */
  method PauseAndResumeFade(a: Action, f: Fade.FadeController, p: World, q: World) returns (r: Result<(), ActionError>)
    requires a.Valid() && a.ctl == FadeType(f) && a.state.Active? && f.rd.Some? && f.params.target.Some?
    requires WorldOk(p) && WorldOk(q) && p.fadeTarget.Running? && q.fadeTarget == p.fadeTarget && p.now <= q.now
    modifies a`state, a`startAsap, f, Fade.TargetCells(p.fadeTarget)
    ensures a.Valid() && r.Ok? && f.rd.Some? && f.params == old(f.params)
    ensures RunOf(f, q) == AfterCycle(old(RunOf(f, p)), FadeCycle(p, q, f.params), f.dbLin)
    ensures a.state == Active(None) <==>
            ResumeAt(old(f.rd.value), FadeCycle(p, q, f.params)) + f.params.dur > q.now && !q.timerFails
  {
    a.Pause(p);
    r := a.Execute(q);
  }

  // ---- any number of rounds ----

  /** A pause and a resumption, as the worlds the two calls meet. */
  datatype Round = Round(p: World, q: World)

  ghost predicate RoundOk(r: Round, target: Fade.Target) {
    && WorldOk(r.p) && WorldOk(r.q) && r.p.fadeTarget == r.q.fadeTarget == target && target.Running?
    && r.p.now <= r.q.now && !r.q.timerFails
    && forall k :: 0 <= k < |r.p.readings| ==> r.p.readings[k].time <= r.p.readings[k].thresh
  }

  function TimePaused(rounds: seq<Round>): int {
    if rounds == [] then 0 else rounds[0].q.now - rounds[0].p.now + TimePaused(rounds[1..])
  }

  /** No pause comes after the end of a fade due at `start`. */
  predicate PausedInTime(start: int, dur: nat, rounds: seq<Round>)
    decreases |rounds|
  {
    rounds != [] ==>
      && start + dur > rounds[0].p.now
      && PausedInTime(start + (rounds[0].q.now - rounds[0].p.now), dur, rounds[1..])
  }

  lemma PausesNext(start: int, dur: nat, rounds: seq<Round>)
    requires PausedInTime(start, dur, rounds)
    ensures
      if rounds == [] then TimePaused(rounds) == 0
      else
        var pause := rounds[0].q.now - rounds[0].p.now;
        && start + dur > rounds[0].p.now && PausedInTime(start + pause, dur, rounds[1..])
        && TimePaused(rounds) == pause + TimePaused(rounds[1..])
  {
  }

  /** The voice is under the fade, whose parameters ask for its course. */
  predicate Holds(run: FadeRun, params: Fade.FadeParams, dbLin: real -> real, v: Voice) {
    && HasVoice(run.levels, v) && Started(run.rd) && Carries(At(run.levels, v), run.rd)
    && Enabled(params, v) && SameCourse(At(run.levels, v), params, dbLin, v)
  }

  lemma RoundHolds(run: FadeRun, r: Round, params: Fade.FadeParams, dbLin: real -> real, v: Voice)
    requires Holds(run, params, dbLin, v) && RoundOk(r, r.p.fadeTarget) && |r.p.readings| == |run.levels.volumes| + 1
    ensures
      var next := AfterCycle(run, FadeCycle(r.p, r.q, params), dbLin);
      && Holds(next, params, dbLin, v)
      && next.rd.startTime == run.rd.startTime + (r.q.now - r.p.now)
      && ResumeAt(run.rd, FadeCycle(r.p, r.q, params)) == next.rd.startTime
      && At(next.levels, v) == Moved(At(run.levels, v), next.rd.startTime, next.rd.fd.id)
  {
    CycleContinues(run, FadeCycle(r.p, r.q, params), dbLin, v);
  }

  /** q is the curve of p, started `shift` later. */
  predicate Follows(p: Param.Parameter, q: Param.Parameter, shift: int) {
    && p.LinearFade? && q.LinearFade?
    && q.fade.start == p.fade.start + shift && q.fade.duration == p.fade.duration
    && q.fade.from == p.fade.from && q.fade.delta == p.fade.delta && q.fade.active == p.fade.active
  }

  method PauseRound(a: Action, f: Fade.FadeController, target: Fade.Target, round: Round, ghost v: Voice)
    requires a.Valid() && a.ctl == FadeType(f) && a.state.Active? && f.rd.Some? && f.params.target.Some?
    requires RoundOk(round, target) && f.rd.value.startTime + f.params.dur > round.p.now
    requires Holds(FadeRun(Fade.LevelsIn(target), f.rd.value), f.params, f.dbLin, v)
    modifies a`state, a`startAsap, f, Fade.TargetCells(target)
    ensures a.Valid() && a.state.Active? && f.rd.Some? && f.params == old(f.params)
    ensures f.rd.value.startTime == old(f.rd.value.startTime) + (round.q.now - round.p.now)
            && round.p.now <= round.q.now
    ensures Holds(FadeRun(Fade.LevelsIn(target), f.rd.value), f.params, f.dbLin, v)
    ensures Follows(old(At(Fade.LevelsIn(target), v)), At(Fade.LevelsIn(target), v), round.q.now - round.p.now)
  {
    hide AfterCycle, Fade.LevelsIn, Enabled, SameCourse;
    RoundHolds(FadeRun(Fade.LevelsIn(target), f.rd.value), round, f.params, f.dbLin, v);
    var _ := PauseAndResumeFade(a, f, round.p, round.q);
  }

  /** Pausing a playing fade and executing it again any number of times: every voice it holds has, at
      `t` plus the time spent paused, exactly the level it would have had at `t`. */
  method PauseFadeRepeatedly(a: Action, f: Fade.FadeController, target: Fade.Target, rounds: seq<Round>,
                             ghost v: Voice, ghost t: nat)
    requires a.Valid() && a.ctl == FadeType(f) && a.state.Active? && f.rd.Some? && f.params.target.Some?
    requires forall i :: 0 <= i < |rounds| ==> RoundOk(rounds[i], target)
    requires PausedInTime(f.rd.value.startTime, f.params.dur, rounds)
    requires Holds(FadeRun(Fade.LevelsIn(target), f.rd.value), f.params, f.dbLin, v)
    modifies a`state, a`startAsap, f, Fade.TargetCells(target)
    ensures a.Valid() && a.state.Active? && f.rd.Some? && f.params == old(f.params) && TimePaused(rounds) >= 0
    ensures f.rd.value.startTime == old(f.rd.value.startTime) + TimePaused(rounds)
    ensures Holds(FadeRun(Fade.LevelsIn(target), f.rd.value), f.params, f.dbLin, v)
    ensures Param.Get(At(Fade.LevelsIn(target), v), t + TimePaused(rounds))
            == Param.Get(old(At(Fade.LevelsIn(target), v)), t)
    decreases |rounds|
  {
    hide Fade.LevelsIn, Param.Get, Enabled, SameCourse, Carries, Started, RoundOk, PausedInTime, TimePaused;
    PausesNext(f.rd.value.startTime, f.params.dur, rounds);
    if rounds != [] {
      ghost var p := At(Fade.LevelsIn(target), v);
      PauseRound(a, f, target, rounds[0], v);
      ghost var mid, later := At(Fade.LevelsIn(target), v), t + (rounds[0].q.now - rounds[0].p.now);
      Param.ShiftedFade(p.fade, mid.fade, t, later);
      PauseFadeRepeatedly(a, f, target, rounds[1..], v, later);
    }
  }

  /** What pausing twice leaves of the voices a fade holds once it is executed again: the curve
      continued if and only if the first pause came exactly the pre-wait ahead of its start. */
  ghost predicate ContinuesIffAhead(after: FadeRun, run: FadeRun, c: Cycle, prewait: nat, dbLin: real -> real) {
    forall v :: HeldVoice(run, c, dbLin, v) ==>
      && HasVoice(after.levels, v)
      && (At(after.levels, v) == Moved(At(run.levels, v), run.rd.startTime + (c.resumed - c.paused), c.id)
          <==> run.rd.startTime == c.paused + prewait)
  }

  lemma TwicePausedIff(run: FadeRun, c: Cycle, prewait: nat, dbLin: real -> real)
    requires |c.readings| == |run.levels.volumes| + 1 && c.paused <= c.resumed
    ensures ContinuesIffAhead(TwicePaused(run, c, c.resumed + prewait, dbLin), run, c, prewait, dbLin)
  {
    forall v | HeldVoice(run, c, dbLin, v)
      ensures
        var next := TwicePaused(run, c, c.resumed + prewait, dbLin);
        && HasVoice(next.levels, v)
        && (At(next.levels, v) == Moved(At(run.levels, v), run.rd.startTime + (c.resumed - c.paused), c.id)
            <==> run.rd.startTime == c.paused + prewait)
    {
      PausingTwiceContinuesIff(run, c, prewait, dbLin, v);
    }
  }

  method PauseTwice(a: Action, f: Fade.FadeController, p: World, again: World)
    requires a.Valid() && a.ctl == FadeType(f) && a.state.Active? && f.rd.Some?
    requires WorldOk(p) && WorldOk(again) && p.fadeTarget.Running? && again.fadeTarget == p.fadeTarget
    modifies a`state, f, Fade.TargetCells(p.fadeTarget)
    ensures a.Valid() && a.state == Paused(None) && f.rd == old(f.rd) && f.params == old(f.params)
    ensures |p.readings| == |old(RunOf(f, p)).levels.volumes| + 1
    ensures Fade.LevelsIn(p.fadeTarget) ==
            Fade.FreezeLevels(old(Fade.LevelsIn(p.fadeTarget)), f.rd.value.fd.id, f.rd.value.startTime, p.readings)
  {
    hide Fade.FreezeLevels;
    ghost var run, c := RunOf(f, p), FadeCycle(p, p, f.params);
    a.Pause(p);
    a.Pause(again);
    FrozenOnce(run, c, again.readings);
  }

  /** Pausing a playing fade twice and executing it again starts the whole curve over, after the
      pre-wait. */
  method PauseTwiceAndResumeFade(a: Action, f: Fade.FadeController, p: World, again: World, q: World)
    returns (r: Result<(), ActionError>)
    requires a.Valid() && a.ctl == FadeType(f) && a.state.Active? && f.rd.Some? && f.params.target.Some?
    requires WorldOk(p) && WorldOk(again) && WorldOk(q)
    requires p.fadeTarget.Running? && q.fadeTarget == again.fadeTarget == p.fadeTarget && p.now <= q.now
    modifies a`state, a`startAsap, f, Fade.TargetCells(p.fadeTarget)
    ensures a.Valid() && r.Ok? && f.rd.Some? && f.params == old(f.params)
    ensures |p.readings| == |old(RunOf(f, p)).levels.volumes| + 1
    ensures RunOf(f, q) == TwicePaused(old(RunOf(f, p)), FadeCycle(p, q, f.params), q.now + a.meta.prewait, f.dbLin)
    ensures ContinuesIffAhead(RunOf(f, q), old(RunOf(f, p)), FadeCycle(p, q, f.params), a.meta.prewait, f.dbLin)
  {
    hide ContinuesIffAhead, Fade.FreezeLevels, Fade.ExecuteLevels, Fade.LastFade, Fade.LevelsIn;
    ghost var run, c := RunOf(f, p), FadeCycle(p, q, f.params);
    PauseTwice(a, f, p, again);
    r := a.Execute(q);
    TwicePausedIff(run, c, a.meta.prewait, f.dbLin);
  }

  /** A new fade has no target, yet it can be paused; executing it then panics. */
  method PausedNewFadePanics(dbLin: real -> real, p: World, q: World) returns (a: Action, r: Result<(), ActionError>)
    requires WorldOk(p) && WorldOk(q)
    modifies Fade.TargetCells(p.fadeTarget), Fade.TargetCells(q.fadeTarget)
    ensures fresh(a) && a.state == Paused(None) && r == Err(Panicked)
  {
    var f := new Fade.FadeController(dbLin);
    a := new Action(FadeType(f));
    a.Pause(p);
    r := a.Execute(q);
  }

  // ---- audio ----

  /** A callback at the moment of resumption. A sender with something in its ring skips nothing if and only
      if the clock is not ahead of it; that is so at any rate up to the file's for a sender level with the
      first, and at the file's rate the clock is less than a millisecond and a sample behind the first. */
  ghost predicate ResumedInTime(first: Engine.Sender, s: Engine.Sender, now: nat, rate: nat, nframes: nat,
                                slot: Player.SlotView)
    reads first.player, s.player, s.player.volume, s.player.master
  {
    var lead, p := first.player.position, s.player.View();
    var clock, skipped := Player.IdealPosition(now, p.startTime, rate),
      Player.Step(p, now, rate, nframes, slot).skipped;
    && (p.alive && p.active && p.buf != [] && (now - p.startTime) * rate < U64 ==>
        (skipped == [] <==> clock <= p.position))
    && (rate <= first.sampleRate && lead <= p.position ==> skipped == [])
    && (rate == first.sampleRate ==> clock <= lead && (lead - clock) * 1000 < rate + 1000)
  }

  /** What a controller holding `was` is told of a pause and a resumption. */
  ghost function PauseOf(was: AudioRunning, p: World, q: World): PlaybackTime.Pause
    requires was.senders != [] && was.senders[0].sampleRate > 0
    reads was.senders[0].player
  {
    PlaybackTime.Pause(p.now, q.now, was.senders[0].PositionMillis() * 1_000_000)
  }

  method PauseThenExecute(a: Action, c: AudioController, p: World, q: World) returns (r: Result<(), ActionError>)
    requires a.Valid() && a.ctl == AudioType(c) && a.state.Active? && a.Measurable()
    requires WorldOk(p) && WorldOk(q)
    requires c.rd.value.startTime <= p.now ==> c.rd.value.senders[0].PositionMillis() * 1_000_000 <= q.now
    modifies a`state, a`startAsap, c, Players(c.rd.value.senders), Fade.VolumeCells(c.rd.value.senders)
    modifies p.engine.control, q.engine.control
    ensures a.Valid() && r.Ok? && a.state.Active? && c.params == old(c.params)
    ensures
      var was := old(c.rd.value);
      var start := Restart(was.startTime, old(PauseOf(c.rd.value, p, q)), Some(was.est), a.meta.prewait);
      && start >= 0 && c.rd == Some(was.(startTime := start))
      && ViewsOf(was.senders) ==
         StartedViews(PausedViews(old(ViewsOf(c.rd.value.senders))), start, was.startTime == 0, c.params, c.dbLin)
  {
    hide PausedViews, StartedViews, ViewsOf, ProperSenders, Fade.ProperCue;
    a.Pause(p);
    r := a.Execute(q);
  }

  /** Pausing a playing cue and executing it again keeps the rings, positions and patches of its streams. A
      cue still in its pre-wait keeps the wait it had left; a started one is given the start time at which
      its first sender's whole milliseconds have elapsed. */
  method PauseAndResumeAudio(a: Action, c: AudioController, p: World, q: World) returns (r: Result<(), ActionError>)
    requires a.Valid() && a.ctl == AudioType(c) && a.state.Active? && a.Measurable()
    requires WorldOk(p) && WorldOk(q)
    requires c.rd.value.startTime <= p.now ==> c.rd.value.senders[0].PositionMillis() * 1_000_000 <= q.now
    modifies a`state, a`startAsap, c, Players(c.rd.value.senders), Fade.VolumeCells(c.rd.value.senders)
    modifies p.engine.control, q.engine.control
    ensures a.Valid() && r.Ok? && a.state.Active? && a.Measurable() && c.params == old(c.params)
    ensures
      var was := old(c.rd.value);
      var start := Restart(was.startTime, old(PauseOf(c.rd.value, p, q)), Some(was.est), a.meta.prewait);
      && start >= 0 && c.rd == Some(was.(startTime := start))
      && ViewsOf(was.senders)
           == StartedViews(old(ViewsOf(c.rd.value.senders)), start, was.startTime == 0, c.params, c.dbLin)
    ensures c.rd.value.senders[0].PositionMillis() == old(c.rd.value.senders[0].PositionMillis())
    ensures old(c.rd.value.startTime) <= p.now ==>
              forall s, rate, nframes, slot ::
                s in c.rd.value.senders ==> ResumedInTime(c.rd.value.senders[0], s, q.now, rate, nframes, slot)
  {
    hide ResumedInTime, PausedViews, StartedViews, ViewsOf, ProperSenders, Fade.ProperCue;
    ghost var was, views, ms := c.rd.value, ViewsOf(c.rd.value.senders), c.rd.value.senders[0].PositionMillis();
    r := PauseThenExecute(a, c, p, q);
    PauseThenStart(views, c.rd.value.startTime, was.startTime == 0, c.params, c.dbLin);
    SameMillis(was.senders, views, c.rd.value.startTime, was.startTime == 0, c.params, c.dbLin);
    if was.startTime <= p.now {
      AllInTime(was.senders, ms, q.now);
    }
  }

  lemma PauseThenStart(views: seq<Player.PlayerState>, time: nat, first: bool, p: AudioParams, dbLin: real -> real)
    ensures StartedViews(PausedViews(views), time, first, p, dbLin) == StartedViews(views, time, first, p, dbLin)
  {
  }

  lemma SameMillis(senders: seq<Engine.Sender>, views: seq<Player.PlayerState>, time: nat, first: bool,
                   p: AudioParams, dbLin: real -> real)
    requires |views| == |senders| && ViewsOf(senders) == StartedViews(views, time, first, p, dbLin)
    ensures forall i :: 0 <= i < |senders| ==>
              senders[i].player.startTime == time && senders[i].player.position == views[i].position
  {
    assert forall i :: 0 <= i < |senders| ==> senders[i].player.View() == ViewsOf(senders)[i];
  }

  lemma AllInTime(senders: seq<Engine.Sender>, ms: nat, now: nat)
    requires senders != [] && senders[0].sampleRate > 0 && senders[0].PositionMillis() == ms
    requires forall i :: 0 <= i < |senders| ==> senders[i].player.startTime == now - ms * 1_000_000
    ensures forall s, rate, nframes, slot :: s in senders ==> ResumedInTime(senders[0], s, now, rate, nframes, slot)
  {
    forall s, rate, nframes, slot | s in senders ensures ResumedInTime(senders[0], s, now, rate, nframes, slot) {
      var first := senders[0];
      assert s.player.startTime == now - ms * 1_000_000;
      ResumeSkips(s.player.View(), first.player.position, ms, first.sampleRate, now, rate, nframes, slot);
      hide Player.Step, Player.IdealPosition;
    }
  }

  /** The pauses as the controller reports them; a cue that has not started stays where it is. */
  function PausesOf(rounds: seq<Round>, reported: nat): seq<PlaybackTime.Pause> {
    if rounds == [] then []
    else [PlaybackTime.Pause(rounds[0].p.now, rounds[0].q.now, reported)] + PausesOf(rounds[1..], reported)
  }

  ghost predicate MeetsEngine(r: Round, e: Engine.EngineContext) {
    WorldOk(r.p) && WorldOk(r.q) && r.p.engine == r.q.engine == e
  }

  lemma WaitingNext(start: nat, rounds: seq<Round>, reported: nat, est: Option<nat>, prewait: nat)
    requires rounds != [] && WaitingThrough(start, PausesOf(rounds, reported), est, prewait)
    ensures rounds[0].p.now < start && rounds[0].p.now <= rounds[0].q.now
    ensures WaitingThrough(start + (rounds[0].q.now - rounds[0].p.now), PausesOf(rounds[1..], reported), est, prewait)
  {
    assert PausesOf(rounds, reported)[1..] == PausesOf(rounds[1..], reported);
  }

  /** One round of a cue in its pre-wait. */
  method WaitingRound(a: Action, c: AudioController, e: Engine.EngineContext, round: Round)
    requires a.Valid() && a.ctl == AudioType(c) && a.state.Active? && a.Measurable()
    requires MeetsEngine(round, e) && round.p.now < c.rd.value.startTime && round.p.now <= round.q.now
    modifies a`state, a`startAsap, c, Players(c.rd.value.senders), Fade.VolumeCells(c.rd.value.senders), e.control
    ensures a.Valid() && a.state.Active? && a.Measurable() && a.meta == old(a.meta) && c.params == old(c.params)
    ensures c.rd == Some(old(c.rd.value).(startTime := old(c.rd.value.startTime) + (round.q.now - round.p.now)))
    ensures ViewsOf(c.rd.value.senders) ==
            StartedViews(old(ViewsOf(c.rd.value.senders)), c.rd.value.startTime, false, c.params, c.dbLin)
    ensures c.rd.value.senders[0].PositionMillis() == old(c.rd.value.senders[0].PositionMillis())
  {
    hide StartedViews, ViewsOf, ResumedInTime;
    var _ := PauseAndResumeAudio(a, c, round.p, round.q);
  }

  /** Pausing a cue in its pre-wait and executing it again any number of times: its start moves by exactly
      the time spent paused, and its streams are as they were. */
  method PauseAudioRepeatedly(a: Action, c: AudioController, e: Engine.EngineContext, rounds: seq<Round>)
    requires a.Valid() && a.ctl == AudioType(c) && a.state.Active? && a.Measurable()
    requires forall i :: 0 <= i < |rounds| ==> MeetsEngine(rounds[i], e)
    requires WaitingThrough(c.rd.value.startTime, PausesOf(rounds, c.rd.value.senders[0].PositionMillis() * 1_000_000),
                            Some(c.rd.value.est), a.meta.prewait)
    modifies a`state, a`startAsap, c, Players(c.rd.value.senders), Fade.VolumeCells(c.rd.value.senders), e.control
    ensures a.Valid() && a.state.Active? && c.params == old(c.params) && TimePaused(rounds) >= 0
    ensures c.rd == Some(old(c.rd.value).(startTime := old(c.rd.value.startTime) + TimePaused(rounds)))
    ensures ViewsOf(c.rd.value.senders) ==
            if rounds == [] then old(ViewsOf(c.rd.value.senders))
            else StartedViews(old(ViewsOf(c.rd.value.senders)), c.rd.value.startTime, false, c.params, c.dbLin)
    decreases |rounds|
  {
    hide StartedViews, ViewsOf, MeetsEngine, WaitingThrough, PausesOf, Players, Fade.VolumeCells, StreamCells,
      ProperSenders;
    if rounds != [] {
      ghost var views := ViewsOf(c.rd.value.senders);
      WaitingNext(c.rd.value.startTime, rounds, c.rd.value.senders[0].PositionMillis() * 1_000_000,
                  Some(c.rd.value.est), a.meta.prewait);
      WaitingRound(a, c, e, rounds[0]);
      ghost var start := c.rd.value.startTime;
      PauseAudioRepeatedly(a, c, e, rounds[1..]);
      StartAgain(views, start, c.rd.value.startTime, c.params, c.dbLin);
    }
  }

  lemma StartAgain(views: seq<Player.PlayerState>, start: nat, time: nat, p: AudioParams, dbLin: real -> real)
    ensures StartedViews(StartedViews(views, start, false, p, dbLin), time, false, p, dbLin)
            == StartedViews(views, time, false, p, dbLin)
  {
  }
}
