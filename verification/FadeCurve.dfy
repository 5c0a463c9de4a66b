/** Pausing and resuming a fade, any number of times, continues the same curve in every sender it
    still holds; what it does to the senders it does not hold. */
module FadeCurve {
  import opened Containers
  import opened Param
  import opened PlaybackTime
  import opened Fade

  /** An executed fade: the cue's levels and what the controller remembers. */
  datatype FadeRun = FadeRun(levels: Levels, rd: RunningData)

  // ---- the parameters of a cue, one by one ----

  datatype Voice = Master | Channel(index: nat)

  predicate HasVoice(l: Levels, v: Voice) {
    match v case Master => |l.volumes| > 0 case Channel(i) => i < |l.volumes|
  }

  function At(l: Levels, v: Voice): Parameter
    requires HasVoice(l, v)
  {
    match v case Master => l.master case Channel(i) => l.volumes[i]
  }

  predicate Enabled(params: FadeParams, v: Voice) {
    match v case Master => params.fadeMaster.0 case Channel(i) => FadesVolume(params, i)
  }

  /** The level a fade takes an enabled voice to. */
  function Goal(params: FadeParams, dbLin: real -> real, v: Voice): real
    requires Enabled(params, v)
  {
    match v case Master => dbLin(params.fadeMaster.1) case Channel(i) => dbLin(params.fades[i].1)
  }

  /** Which of the freeze's clock readings is this voice's. */
  function ReadingOf(readings: seq<Reading>, l: Levels, v: Voice): Reading
    requires |readings| == |l.volumes| + 1 && HasVoice(l, v)
  {
    match v case Master => readings[0] case Channel(i) => readings[i + 1]
  }

  // ---- a pause and a resumption ----

  /** A pause at `paused`, with the clock readings of the freeze, and a resumption at `resumed` with the
      parameters of that time, under the identity `id`. */
  datatype Cycle = Cycle(paused: nat, readings: seq<Reading>, resumed: nat, params: FadeParams, id: nat, blank: nat)

  function ResumeAt(rd: RunningData, c: Cycle): (start: int)
    ensures start == rd.fd.start + (c.resumed - c.paused)
  {
    StartTime(Some(FromInt(Info(rd, c.paused), c.paused)), c.resumed, 0)
  }

  /** What a pause leaves of the levels. */
  function Frozen(run: FadeRun, c: Cycle): Levels
    requires |c.readings| == |run.levels.volumes| + 1
  {
    FreezeLevels(run.levels, run.rd.fd.id, run.rd.startTime, c.readings)
  }

  /** What executing a paused fade makes of levels l. */
  function Resumed(l: Levels, rd: RunningData, c: Cycle, dbLin: real -> real): FadeRun
    requires c.paused <= c.resumed
  {
    Restarted(l, rd, c.params, ResumeAt(rd, c), c.id, c.blank, dbLin)
  }

  /** Executing at `time` a fade that was executed before. */
  function Restarted(l: Levels, rd: RunningData, params: FadeParams, time: nat, id: nat, blank: nat,
                     dbLin: real -> real): FadeRun
  {
    FadeRun(ExecuteLevels(l, params, dbLin, time, rd.startTime, id),
            RunningData(params, time, LastFade(l, |params.fades|, params, dbLin, time, rd.startTime, id, blank)))
  }

  function AfterCycle(run: FadeRun, c: Cycle, dbLin: real -> real): FadeRun
    requires |c.readings| == |run.levels.volumes| + 1 && c.paused <= c.resumed
  {
    Resumed(Frozen(run, c), run.rd, c, dbLin)
  }

  lemma FrozenVoice(run: FadeRun, c: Cycle, v: Voice)
    requires |c.readings| == |run.levels.volumes| + 1 && HasVoice(run.levels, v)
    ensures HasVoice(Frozen(run, c), v)
    ensures At(Frozen(run, c), v) ==
            FreezeParam(At(run.levels, v), run.rd.fd.id, run.rd.startTime, ReadingOf(c.readings, run.levels, v))
  {
  }

  lemma RestartedVoice(l: Levels, rd: RunningData, params: FadeParams, time: nat, id: nat, blank: nat,
                       dbLin: real -> real, v: Voice)
    requires HasVoice(l, v)
    ensures
      var next := Restarted(l, rd, params, time, id, blank, dbLin);
      && HasVoice(next.levels, v)
      && At(next.levels, v) ==
         (if Enabled(params, v)
          then LinearFade(AppliedFade(At(l, v), Goal(params, dbLin, v), params.dur, time, rd.startTime, id))
          else At(l, v))
      && (Enabled(params, v) ==> Started(next.rd) && next.rd.fd.id == id)
  {
    LastFadeShared(l, |params.fades|, params, dbLin, time, rd.startTime, id, blank);
  }

  // ---- the senders a fade still holds ----

  /** The fade last applied belongs to the execution, which therefore faded something. */
  predicate Started(rd: RunningData) {
    rd.fd.start == rd.startTime
  }

  /** p is under the fade of this execution. */
  predicate Carries(p: Parameter, rd: RunningData) {
    p.LinearFade? && p.fade.start == rd.startTime && p.fade.active && p.fade.id == rd.fd.id
  }

  predicate Unrelated(p: Parameter, rd: RunningData) {
    p.LinearFade? ==> p.fade.id != rd.fd.id
  }

  /** The parameters ask for the end and the duration that p's fade has. */
  predicate SameCourse(p: Parameter, params: FadeParams, dbLin: real -> real, v: Voice)
    requires p.LinearFade? && Enabled(params, v)
  {
    Goal(params, dbLin, v) == p.fade.from + p.fade.delta && params.dur == p.fade.duration
  }

  function Moved(p: Parameter, start: nat, id: nat): Parameter
    requires p.LinearFade?
  {
    LinearFade(p.fade.(start := start, id := id))
  }

  /** A first execution puts exactly the enabled voices under its fade. */
  lemma ExecuteStarts(l: Levels, params: FadeParams, dbLin: real -> real, time: nat, id: nat, blank: nat, v: Voice)
    requires HasVoice(l, v) && (At(l, v).LinearFade? ==> At(l, v).fade.id != id)
    ensures
      var after := ExecuteLevels(l, params, dbLin, time, time, id);
      var rd := RunningData(params, time, LastFade(l, |params.fades|, params, dbLin, time, time, id, blank));
      && HasVoice(after, v)
      && (if Enabled(params, v) then
            && Started(rd) && Carries(At(after, v), rd) && SameCourse(At(after, v), params, dbLin, v)
            && At(after, v).fade.from == Get(At(l, v), time)
          else At(after, v) == At(l, v) && (rd.fd.id == id ==> Unrelated(At(after, v), rd)))
  {
    LastFadeShared(l, |params.fades|, params, dbLin, time, time, id, blank);
  }

  /** The level a fade started from survives the freeze: it is what the next execution reads. */
  lemma FromSurvives(p: Parameter, rd: RunningData, r: Reading)
    requires Carries(p, rd) && r.time <= r.thresh
    ensures Get(FreezeParam(p, rd.fd.id, rd.startTime, r), rd.startTime) == p.fade.from
  {
    assert PercentageComplete(p.fade, rd.startTime) == 0.0;
    if rd.startTime >= r.thresh + 1 {
      assert PercentageComplete(p.fade, r.time) == 0.0;
    }
  }

  /** While frozen, the level stays what it was when the sender was frozen. */
  lemma FreezeHolds(p: Parameter, id: nat, origT: nat, r: Reading, t: nat)
    requires p.LinearFade? && p.fade.id == id && t > r.thresh
    ensures Get(FreezeParam(p, id, origT, r), t) == Get(p, r.time)
  {
  }

  /** Executing again at `time` a fade paused in p: the curve of p moved there, if and only if the
      parameters still ask for its end and its duration. */
  lemma FrozenRestarts(p: Parameter, rd: RunningData, r: Reading, params: FadeParams, dbLin: real -> real, v: Voice,
                       time: nat, id: nat)
    requires Carries(p, rd) && r.time <= r.thresh && Enabled(params, v)
    ensures
      var frozen := FreezeParam(p, rd.fd.id, rd.startTime, r);
      var again := LinearFade(AppliedFade(frozen, Goal(params, dbLin, v), params.dur, time, rd.startTime, id));
      && again.fade.from == p.fade.from && again.fade.active
      && (again == Moved(p, time, id) <==> SameCourse(p, params, dbLin, v))
  {
    FromSurvives(p, rd, r);
  }

  /** The clock does not go backwards and a reading of it belongs to every sender. */
  predicate Timed(c: Cycle, l: Levels, v: Voice)
    requires HasVoice(l, v)
  {
    && |c.readings| == |l.volumes| + 1 && c.paused <= c.resumed
    && ReadingOf(c.readings, l, v).time <= ReadingOf(c.readings, l, v).thresh
  }

  /** A pause that finds the cue at `before` and a resumption that finds it at `between`. */
  datatype Episode = Episode(before: Levels, cycle: Cycle, between: Levels)

  /** The voice is p at the pause and as the pause left it at the resumption; nothing is said of the
      other voices. */
  predicate Keeps(e: Episode, rd: RunningData, p: Parameter, v: Voice) {
    && HasVoice(e.before, v) && Timed(e.cycle, e.before, v) && At(e.before, v) == p
    && HasVoice(e.between, v) && At(e.between, v) == At(Frozen(FadeRun(e.before, rd), e.cycle), v)
  }

  /** Pausing and resuming moves the curve of a voice still under the fade by the length of the pause,
      if and only if the parameters still ask for its course, whatever happens to the other voices. */
  lemma EpisodeContinues(p: Parameter, rd: RunningData, e: Episode, dbLin: real -> real, v: Voice)
    requires Started(rd) && Carries(p, rd) && Keeps(e, rd, p, v) && Enabled(e.cycle.params, v)
    ensures
      var next := Resumed(e.between, rd, e.cycle, dbLin);
      && HasVoice(next.levels, v) && Started(next.rd) && Carries(At(next.levels, v), next.rd)
      && next.rd.startTime == rd.startTime + (e.cycle.resumed - e.cycle.paused) && next.rd.fd.id == e.cycle.id
      && (At(next.levels, v) == Moved(p, next.rd.startTime, e.cycle.id) <==> SameCourse(p, e.cycle.params, dbLin, v))
  {
    var c := e.cycle;
    FrozenVoice(FadeRun(e.before, rd), c, v);
    RestartedVoice(e.between, rd, c.params, ResumeAt(rd, c), c.id, c.blank, dbLin, v);
    FrozenRestarts(p, rd, ReadingOf(c.readings, e.before, v), c.params, dbLin, v, ResumeAt(rd, c), c.id);
    hide Frozen, FreezeParam, ExecuteLevels, LastFade;
  }

  /** The same when nothing comes between the pause and the resumption. */
  lemma CycleContinues(run: FadeRun, c: Cycle, dbLin: real -> real, v: Voice)
    requires HasVoice(run.levels, v) && Timed(c, run.levels, v)
    requires Started(run.rd) && Carries(At(run.levels, v), run.rd) && Enabled(c.params, v)
    ensures
      var p, next := At(run.levels, v), AfterCycle(run, c, dbLin);
      && HasVoice(next.levels, v) && Started(next.rd) && Carries(At(next.levels, v), next.rd)
      && next.rd.startTime == run.rd.startTime + (c.resumed - c.paused) && next.rd.fd.id == c.id
      && (At(next.levels, v) == Moved(p, next.rd.startTime, c.id) <==> SameCourse(p, c.params, dbLin, v))
  {
    FrozenVoice(run, c, v);
    EpisodeContinues(At(run.levels, v), run.rd, Episode(run.levels, c, Frozen(run, c)), dbLin, v);
  }

  // ---- any number of episodes ----

  /** Through all episodes nothing but this fade touches the voice, and its parameters stay. */
  ghost predicate HeldThrough(p: Parameter, rd: RunningData, eps: seq<Episode>, dbLin: real -> real, v: Voice)
    decreases |eps|
  {
    eps != [] ==>
      && Keeps(eps[0], rd, p, v) && Enabled(eps[0].cycle.params, v)
      && p.LinearFade? && SameCourse(p, eps[0].cycle.params, dbLin, v)
      && var next := Resumed(eps[0].between, rd, eps[0].cycle, dbLin);
      HeldThrough(At(next.levels, v), next.rd, eps[1..], dbLin, v)
  }

  /** The voice and the running data at the end. */
  function AfterEpisodes(p: Parameter, rd: RunningData, eps: seq<Episode>, dbLin: real -> real, v: Voice)
    : (Parameter, RunningData)
    requires HeldThrough(p, rd, eps, dbLin, v)
    decreases |eps|
  {
    if eps == [] then (p, rd)
    else
      var next := Resumed(eps[0].between, rd, eps[0].cycle, dbLin);
      AfterEpisodes(At(next.levels, v), next.rd, eps[1..], dbLin, v)
  }

  /** Total time spent paused. */
  function TotalPause(eps: seq<Episode>): int {
    if eps == [] then 0 else eps[0].cycle.resumed - eps[0].cycle.paused + TotalPause(eps[1..])
  }

  /** After any number of pauses and resumptions a voice held throughout has, at `t` plus the total
      time paused, exactly the level it would have had at `t`: neither other fades taking over other
      senders nor anything else done to them changes its curve. */
  lemma {:induction false} PausesContinueTheCurve(p: Parameter, rd: RunningData, eps: seq<Episode>,
        dbLin: real -> real, v: Voice, t: nat)
    requires Started(rd) && Carries(p, rd) && HeldThrough(p, rd, eps, dbLin, v)
    ensures TotalPause(eps) >= 0
    ensures
      var (last, rdLast) := AfterEpisodes(p, rd, eps, dbLin, v);
      && Started(rdLast) && Carries(last, rdLast) && rdLast.startTime == rd.startTime + TotalPause(eps)
      && last == Moved(p, rd.startTime + TotalPause(eps), last.fade.id)
      && Get(last, t + TotalPause(eps)) == Get(p, t)
    decreases |eps|
  {
    hide Get, Resumed, SameCourse;
    if eps != [] {
      var next := Resumed(eps[0].between, rd, eps[0].cycle, dbLin);
      EpisodeContinues(p, rd, eps[0], dbLin, v);
      var later: nat := t + (next.rd.startTime - rd.startTime);
      PausesContinueTheCurve(At(next.levels, v), next.rd, eps[1..], dbLin, v, later);
      ShiftedFade(p.fade, At(next.levels, v).fade, t, later);
    }
  }

  // ---- the senders a fade no longer holds ----

  /** A pause changes exactly the voices under this fade. */
  lemma PauseTouchesIff(run: FadeRun, c: Cycle, v: Voice)
    requires |c.readings| == |run.levels.volumes| + 1 && HasVoice(run.levels, v)
    ensures HasVoice(Frozen(run, c), v)
    ensures At(Frozen(run, c), v) == At(run.levels, v) <==> Unrelated(At(run.levels, v), run.rd)
  {
    FrozenVoice(run, c, v);
  }

  /** A voice that another fade has taken over comes through a whole cycle unchanged if and only if the
      resumed parameters do not enable it. An enabled one is taken back: it starts again from the
      level it has, under the other fade, at the time this one was scheduled for. */
  lemma TakenOverLeftAloneIff(run: FadeRun, c: Cycle, dbLin: real -> real, v: Voice)
    requires |c.readings| == |run.levels.volumes| + 1 && c.paused <= c.resumed && HasVoice(run.levels, v)
    requires Started(run.rd) && Unrelated(At(run.levels, v), run.rd)
    requires At(run.levels, v).LinearFade? ==> At(run.levels, v).fade.id != c.id
    ensures
      var p, next := At(run.levels, v), AfterCycle(run, c, dbLin);
      && HasVoice(next.levels, v)
      && (At(next.levels, v) == p <==> !Enabled(c.params, v))
      && (Enabled(c.params, v) ==>
            && Carries(At(next.levels, v), next.rd)
            && At(next.levels, v) ==
               LinearFade(AppliedFade(p, Goal(c.params, dbLin, v), c.params.dur,
                                      run.rd.startTime + (c.resumed - c.paused), run.rd.startTime, c.id)))
  {
    PauseTouchesIff(run, c, v);
    RestartedVoice(Frozen(run, c), run.rd, c.params, ResumeAt(run.rd, c), c.id, c.blank, dbLin, v);
    hide Frozen, ExecuteLevels, LastFade;
  }

  // ---- pausing twice ----

  /** A second pause finds nothing of the fade left to freeze. */
  lemma FrozenOnce(run: FadeRun, c: Cycle, readings: seq<Reading>)
    requires |c.readings| == |readings| == |run.levels.volumes| + 1
    ensures FreezeLevels(Frozen(run, c), run.rd.fd.id, run.rd.startTime, readings) == Frozen(run, c)
  {
    assert FreezeLevels(Frozen(run, c), run.rd.fd.id, run.rd.startTime, readings).volumes == Frozen(run, c).volumes;
  }

  /** A voice under the fade whose parameters ask for the same course. */
  predicate HeldVoice(run: FadeRun, c: Cycle, dbLin: real -> real, v: Voice) {
    && HasVoice(run.levels, v) && Timed(c, run.levels, v) && Enabled(c.params, v)
    && Carries(At(run.levels, v), run.rd) && SameCourse(At(run.levels, v), c.params, dbLin, v)
  }

  /** What executing at `time` makes of a fade paused twice. */
  function TwicePaused(run: FadeRun, c: Cycle, time: nat, dbLin: real -> real): FadeRun
    requires |c.readings| == |run.levels.volumes| + 1
  {
    Restarted(Frozen(run, c), run.rd, c.params, time, c.id, c.blank, dbLin)
  }

  /** Pausing what is already paused forgets how far it was: the next execution starts the whole curve
      again after the pre-wait. That continues the curve if and only if the pause came exactly the
      pre-wait ahead of the start. */
  lemma PausingTwiceContinuesIff(run: FadeRun, c: Cycle, prewait: nat, dbLin: real -> real, v: Voice)
    requires HeldVoice(run, c, dbLin, v)
    ensures
      var p, next := At(run.levels, v), TwicePaused(run, c, StartTime(None, c.resumed, prewait), dbLin);
      && HasVoice(next.levels, v)
      && At(next.levels, v) == Moved(p, c.resumed + prewait, c.id)
      && (At(next.levels, v) == Moved(p, run.rd.startTime + (c.resumed - c.paused), c.id)
          <==> run.rd.startTime == c.paused + prewait)
  {
    FrozenVoice(run, c, v);
    RestartedVoice(Frozen(run, c), run.rd, c.params, c.resumed + prewait, c.id, c.blank, dbLin, v);
    FrozenRestarts(At(run.levels, v), run.rd, ReadingOf(c.readings, run.levels, v), c.params, dbLin, v,
                   c.resumed + prewait, c.id);
    hide Frozen, ExecuteLevels, LastFade;
  }
}
