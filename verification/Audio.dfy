/** The controller of an audio cue: what it checks, the senders it holds, and what loading,
    executing, pausing and resetting do to them. */
module Audio {
  import opened Containers
  import opened Param
  import Player
  import opened AudioThread
  import opened Engine
  import opened PlaybackTime
  import Fade

  datatype AudioChannel = AudioChannel(patch: Option<nat>, vol: real)

  datatype AudioParams = AudioParams(url: Option<string>, chans: seq<AudioChannel>, masterVol: real)

  /** The file opened for the current URL; `duration` is in nanoseconds. */
  datatype FileState = NoFile | OpenFailed | Opened(channels: nat, rate: nat, duration: nat)

  datatype ParameterError =
    | InvalidUrl
    | NoFileOpened
    | ErrorOpening
    | ZeroChannels
    | FewerChannels
    | ChannelMissing(index: nat)
    | UrlRequired
    | FadeTarget
    | NothingFaded

  datatype AudioError = FileDisappeared | ChannelDisappeared

  datatype AudioRunning = AudioRunning(senders: seq<Sender>, startTime: nat, est: nat)

  /** Channel ids the mixer knows, with their engine slots. */
  type MixerChannels = map<nat, nat>

  function MissingPatches(chans: seq<AudioChannel>, n: nat, mixer: MixerChannels): seq<ParameterError>
    requires n <= |chans|
  {
    if n == 0 then []
    else
      MissingPatches(chans, n - 1, mixer)
      + (if chans[n - 1].patch.Some? && chans[n - 1].patch.value !in mixer then [ChannelMissing(n - 1)] else [])
  }

  function FileErrors(file: FileState, chans: nat): seq<ParameterError> {
    match file
    case NoFile => []
    case OpenFailed => [ErrorOpening]
    case Opened(channels, _, _) =>
      (if channels == 0 then [ZeroChannels] else []) + (if chans > channels then [FewerChannels] else [])
  }

  /** `url` is the parsed URL of the parameters: absent, bad or good. */
  function VerifyAudio(params: AudioParams, url: Option<bool>, file: FileState, mixer: MixerChannels)
    : seq<ParameterError>
  {
    if params.url.None? then [UrlRequired]
    else if url == Some(false) then [InvalidUrl]
    else if file.NoFile? then [NoFileOpened]
    else FileErrors(file, |params.chans|) + MissingPatches(params.chans, |params.chans|, mixer)
  }

  predicate PatchesExist(chans: seq<AudioChannel>, n: nat, mixer: MixerChannels) {
    forall i :: 0 <= i < n && i < |chans| && chans[i].patch.Some? ==> chans[i].patch.value in mixer
  }

  lemma {:induction false} NoMissingPatches(chans: seq<AudioChannel>, n: nat, mixer: MixerChannels)
    requires n <= |chans|
    ensures MissingPatches(chans, n, mixer) == [] <==> PatchesExist(chans, n, mixer)
  {
    if n > 0 {
      NoMissingPatches(chans, n - 1, mixer);
    }
  }

  /** Nothing is wrong exactly when a file with enough channels is open and every patch exists. */
  lemma VerifiedMeansLoadable(params: AudioParams, url: Option<bool>, file: FileState, mixer: MixerChannels)
    ensures VerifyAudio(params, url, file, mixer) == [] <==>
            && params.url.Some? && url != Some(false)
            && file.Opened? && file.channels >= 1 && |params.chans| <= file.channels
            && PatchesExist(params.chans, |params.chans|, mixer)
  {
    NoMissingPatches(params.chans, |params.chans|, mixer);
  }

  lemma {:induction false} MissingSays(chans: seq<AudioChannel>, n: nat, mixer: MixerChannels, e: ParameterError)
    requires n <= |chans|
    ensures e in MissingPatches(chans, n, mixer) <==>
            && e.ChannelMissing? && e.index < n
            && chans[e.index].patch.Some? && chans[e.index].patch.value !in mixer
  {
    if n > 0 {
      MissingSays(chans, n - 1, mixer, e);
    }
  }

  /** Each error is reported for its own reason only; a missing or bad URL, or no file, hides the others. */
  lemma ErrorsSay(params: AudioParams, url: Option<bool>, file: FileState, mixer: MixerChannels, e: ParameterError)
    ensures
      var looked := params.url.Some? && url != Some(false) && !file.NoFile?;
      e in VerifyAudio(params, url, file, mixer) <==>
      match e
      case UrlRequired => params.url.None?
      case InvalidUrl => params.url.Some? && url == Some(false)
      case NoFileOpened => params.url.Some? && url != Some(false) && file.NoFile?
      case ErrorOpening => looked && file.OpenFailed?
      case ZeroChannels => looked && file.Opened? && file.channels == 0
      case FewerChannels => looked && file.Opened? && |params.chans| > file.channels
      case ChannelMissing(i) =>
        looked && i < |params.chans| && params.chans[i].patch.Some? && params.chans[i].patch.value !in mixer
      case FadeTarget => false
      case NothingFaded => false
  {
    MissingSays(params.chans, |params.chans|, mixer, e);
  }

  /** One original sender per channel; the first one's master volume is everybody's. */
  ghost predicate ProperSenders(senders: seq<Sender>) {
    && |senders| >= 1
    && Fade.ProperCue(senders)
    && (forall i :: 0 <= i < |senders| ==> senders[i].player.master == senders[0].player.master)
    && (forall i, j :: 0 <= i < j < |senders| ==> senders[i].player != senders[j].player)
  }

  ghost function Players(senders: seq<Sender>): set<object> {
    set s | s in senders :: s.player
  }

  /** Everything a sender shares with the audio thread. */
  ghost function StreamCells(senders: seq<Sender>): set<object> {
    Players(senders) + Fade.VolumeCells(senders) + set s | s in senders :: s.player.master
  }

  ghost function ViewsOf(senders: seq<Sender>): (views: seq<Player.PlayerState>)
    reads StreamCells(senders)
    ensures |views| == |senders| && forall i :: 0 <= i < |views| ==> views[i] == senders[i].player.View()
  {
    seq(|senders|, i requires 0 <= i < |senders| reads StreamCells(senders) =>
      assert senders[i] in senders; senders[i].player.View())
  }

  /** Stream i goes to the mixer channel configured for it, or nowhere. */
  ghost predicate PatchedAsConfigured(senders: seq<Sender>, chans: seq<AudioChannel>, mixer: MixerChannels)
    reads Players(senders)
  {
    forall i :: 0 <= i < |senders| ==>
      assert senders[i] in senders;
      match if i < |chans| then chans[i].patch else None
      case Some(u) => u in mixer && senders[i].player.outputPatch == mixer[u]
      case None => senders[i].player.outputPatch == U64 - 1
  }

  // ---- what the operations make of a cue's streams ----

  /** A stream nobody has touched: empty, at its beginning, at full level. */
  function NewView(patch: nat, uuid: nat): Player.PlayerState {
    Player.PlayerState([], STREAM_BUFFER_SIZE, 0, 0, false, false, false, patch, Raw(1.0), Raw(1.0), uuid, false, false)
  }

  /** The first n of the fresh uuids. */
  function FirstIds(uuids: nat -> nat, n: nat): (ids: seq<nat>)
    ensures |ids| == n && forall i :: 0 <= i < n ==> ids[i] == uuids(i)
  {
    seq(n, i requires 0 <= i < n => uuids(i))
  }

  function NewViews(ids: seq<nat>): (r: seq<Player.PlayerState>)
    ensures |r| == |ids| && forall i :: 0 <= i < |ids| ==> r[i] == NewView(NO_PATCH, ids[i])
  {
    seq(|ids|, i requires 0 <= i < |ids| => NewView(NO_PATCH, ids[i]))
  }

  function PatchFor(chans: seq<AudioChannel>, i: nat, mixer: MixerChannels): nat {
    if i < |chans| && chans[i].patch.Some? && chans[i].patch.value in mixer then mixer[chans[i].patch.value]
      else NO_PATCH
  }

  function PatchedViews(views: seq<Player.PlayerState>, chans: seq<AudioChannel>, mixer: MixerChannels)
    : (r: seq<Player.PlayerState>)
    ensures |r| == |views| && forall i :: 0 <= i < |views| ==>
              r[i] == views[i].(outputPatch := PatchFor(chans, i, mixer))
  {
    seq(|views|, i requires 0 <= i < |views| => views[i].(outputPatch := PatchFor(chans, i, mixer)))
  }

  /** Loading gives every channel of the file a new stream, patched as configured. The configured levels
      are not set yet. */
  function LoadedViews(ids: seq<nat>, chans: seq<AudioChannel>, mixer: MixerChannels): (r: seq<Player.PlayerState>)
    ensures |r| == |ids| && forall i :: 0 <= i < |ids| ==> r[i] == NewView(PatchFor(chans, i, mixer), ids[i])
  {
    seq(|ids|, i requires 0 <= i < |ids| => NewView(PatchFor(chans, i, mixer), ids[i]))
  }

  lemma LoadedArePatched(ids: seq<nat>, chans: seq<AudioChannel>, mixer: MixerChannels)
    ensures PatchedViews(NewViews(ids), chans, mixer) == LoadedViews(ids, chans, mixer)
    ensures Unpatched(NewViews(ids))
  {
    hide PatchFor;
  }

  lemma LoadedGoWhereConfigured(senders: seq<Sender>, ids: seq<nat>, chans: seq<AudioChannel>, mixer: MixerChannels)
    requires ViewsOf(senders) == LoadedViews(ids, chans, mixer) && PatchesExist(chans, |senders|, mixer)
    ensures PatchedAsConfigured(senders, chans, mixer)
  {
    var loaded := LoadedViews(ids, chans, mixer);
    assert forall i :: 0 <= i < |senders| ==>
             ViewsOf(senders)[i] == senders[i].player.View() && loaded[i] == NewView(PatchFor(chans, i, mixer), ids[i]);
  }

  predicate Unpatched(views: seq<Player.PlayerState>) {
    forall i :: 0 <= i < |views| ==> views[i].outputPatch == NO_PATCH
  }

  function VolumeFor(p: AudioParams, dbLin: real -> real, i: nat, otherwise: Parameter): Parameter {
    if i < |p.chans| then Raw(dbLin(p.chans[i].vol)) else otherwise
  }

  /** A start keeps rings, positions and patches; a first one also sets the configured volumes. */
  function StartedViews(views: seq<Player.PlayerState>, time: nat, first: bool, p: AudioParams, dbLin: real -> real)
    : (r: seq<Player.PlayerState>)
    ensures |r| == |views|
  {
    seq(|views|, i requires 0 <= i < |views| =>
      views[i].(active := true, startTime := time,
                volume := if first then VolumeFor(p, dbLin, i, views[i].volume) else views[i].volume))
  }

  function PausedViews(views: seq<Player.PlayerState>): (r: seq<Player.PlayerState>)
    ensures |r| == |views|
  {
    seq(|views|, i requires 0 <= i < |views| => views[i].(active := false))
  }

  /** New parameters set the configured volumes and the master level at once. */
  function LevelledViews(views: seq<Player.PlayerState>, p: AudioParams, dbLin: real -> real)
    : (r: seq<Player.PlayerState>)
    ensures |r| == |views|
  {
    seq(|views|, i requires 0 <= i < |views| =>
      views[i].(volume := VolumeFor(p, dbLin, i, views[i].volume), master := Raw(dbLin(p.masterVol))))
  }

  /** The commands that announce the senders' players to the audio thread, in order. */
  function Announced(senders: seq<Sender>): (cmds: seq<AudioThreadCommand>) {
    if senders == [] then [] else Announced(senders[..|senders| - 1]) + [CmdAddPlayer(senders[|senders| - 1].player)]
  }

  /** A further sender of a cue, or its first when `master` is absent, which brings the master level. */
  method NewStream(engine: EngineContext, rate: nat, master: Option<VolumeCell>, uuid: nat) returns (s: Sender)
    requires master.Some? ==> master.value.param == Raw(1.0)
    modifies engine.control
    ensures fresh(s) && fresh(s.player) && fresh(s.player.volume) && s.sampleRate == rate
    ensures match master case Some(m) => s.player.master == m case None => fresh(s.player.master)
    ensures s.player.volume != s.player.master && s.player.master.param == Raw(1.0)
    ensures s.player.View() == NewView(NO_PATCH, uuid)
    ensures engine.control.items == old(engine.control.items) + [CmdAddPlayer(s.player)]
  {
    s := engine.NewSender(rate, master, uuid);
  }

  lemma AnnouncedNext(senders: seq<Sender>, s: Sender)
    ensures Announced(senders + [s]) == Announced(senders) + [CmdAddPlayer(s.player)]
  {
    assert (senders + [s])[..|senders|] == senders;
  }

  lemma CueStarts(s: Sender, ids: seq<nat>)
    requires s.player.volume != s.player.master && |ids| > 0 && s.player.View() == NewView(NO_PATCH, ids[0])
    ensures ProperSenders([s]) && ViewsOf([s]) == NewViews(ids[..1]) && Announced([s]) == [CmdAddPlayer(s.player)]
    ensures StreamCells([s]) == {s.player, s.player.volume, s.player.master}
  {
    assert [s][..0] == [];
  }

  lemma ProperGrows(senders: seq<Sender>, s: Sender)
    requires ProperSenders(senders) && s.player.master == senders[0].player.master && s.player.volume != s.player.master
    requires forall i :: 0 <= i < |senders| ==>
               senders[i].player != s.player && senders[i].player.volume != s.player.volume
    ensures ProperSenders(senders + [s])
  {
    var more := senders + [s];
    assert more[0] == senders[0];
    forall i, j | 0 <= i < j < |more|
      ensures more[i].player != more[j].player && more[i].player.volume != more[j].player.volume
    {
      assert more[i] == senders[i] && (j < |senders| ==> more[j] == senders[j]);
    }
    forall i | 0 <= i < |more| ensures more[i].player.master == more[0].player.master != more[i].player.volume {
      assert i < |senders| ==> more[i] == senders[i];
    }
  }

  lemma CellsGrow(senders: seq<Sender>, s: Sender)
    ensures StreamCells(senders + [s]) == StreamCells(senders) + {s.player, s.player.volume, s.player.master}
  {
    var more := senders + [s];
    assert forall x :: x in more <==> x in senders || x == s;
    assert Players(more) == Players(senders) + {s.player};
    assert Fade.VolumeCells(more) == Fade.VolumeCells(senders) + {s.player.volume};
  }

  lemma ViewsGrow(senders: seq<Sender>, s: Sender, ids: seq<nat>)
    requires |senders| < |ids| && ViewsOf(senders) == NewViews(ids[..|senders|])
    requires s.player.View() == NewView(NO_PATCH, ids[|senders|])
    ensures ViewsOf(senders + [s]) == NewViews(ids[..|senders| + 1])
  {
    hide NewView, StreamPlayer.View;
    var n, more := |senders|, senders + [s];
    assert forall i :: 0 <= i < n ==> ViewsOf(more)[i] == ViewsOf(senders)[i];
    assert ViewsOf(more)[n] == NewViews(ids[..n + 1])[n];
  }

  /** Asking for no senders would underflow. */
  method NewSenders(engine: EngineContext, n: nat, rate: nat, uuids: nat -> nat) returns (senders: seq<Sender>)
    requires n >= 1
    modifies engine.control
    ensures |senders| == n && ProperSenders(senders) && fresh(StreamCells(senders))
    ensures forall i :: 0 <= i < n ==> senders[i].sampleRate == rate
    ensures ViewsOf(senders) == NewViews(FirstIds(uuids, n))
    ensures engine.control.items == old(engine.control.items) + Announced(senders)
  {
    hide NewView, NewViews, StreamPlayer.View, Announced, ProperSenders, StreamCells, ViewsOf, FirstIds;
    ghost var ids := FirstIds(uuids, n);
    var first := NewStream(engine, rate, None, uuids(0));
    senders := [first];
    CueStarts(first, ids);
    while |senders| < n
      invariant 1 <= |senders| <= n && senders[0] == first && ProperSenders(senders)
      invariant fresh(first.player.master) && first.player.master.param == Raw(1.0)
      invariant fresh(StreamCells(senders)) && ViewsOf(senders) == NewViews(ids[..|senders|])
      invariant forall i :: 0 <= i < |senders| ==> senders[i].sampleRate == rate
      invariant engine.control.items == old(engine.control.items) + Announced(senders)
    {
      var s := NewStream(engine, rate, Some(first.player.master), uuids(|senders|));
      ProperGrows(senders, s);
      CellsGrow(senders, s);
      AnnouncedNext(senders, s);
      ViewsGrow(senders, s, ids);
      senders := senders + [s];
    }
    assert ids[..n] == ids;
  }

  /** What the rest of the server provides while an action is handled. */
  datatype World = World(
    now: nat, mixer: MixerChannels, engine: EngineContext, uuids: nat -> nat,
    reopened: FileState, fadeTarget: Fade.Target, readings: seq<Fade.Reading>, id: nat, blank: nat, timerFails: bool)

  /** What the parameters being set meet: whether their URL parses, the file it names, the mixer's
      default channels, and how many channels a fade's previous target has. */
  datatype Surroundings = Surroundings(parsed: Option<bool>, media: FileState, defs: seq<nat>, targetChans: Option<nat>)

  /** A cue for a newly opened file gets a channel for each of the file's. */
  function ChannelsFor(chans: seq<AudioChannel>, file: FileState, defs: seq<nat>): (r: seq<AudioChannel>)
    ensures file.Opened? ==> |r| >= file.channels && (|r| == file.channels <==> |chans| <= file.channels)
    ensures chans != [] ==> chans <= r
    ensures file.Opened? && chans == [] ==> forall i :: 0 <= i < |r| ==>
              r[i] == AudioChannel(if i < |defs| then Some(defs[i]) else None, 0.0)
    ensures chans != [] ==> forall i :: |chans| <= i < |r| ==> r[i] == AudioChannel(None, 0.0)
    ensures !file.Opened? ==> r == chans
  {
    match file
    case Opened(channels, _, _) =>
      if |chans| == 0 then seq(channels, i requires 0 <= i < channels =>
                               AudioChannel(if i < |defs| then Some(defs[i]) else None, 0.0))
      else if |chans| < channels then chans + seq(channels - |chans|, _ => AudioChannel(None, 0.0))
      else chans
    case _ => chans
  }

  /** What setting parameters makes of them. */
  function NormalisedAudio(old_: AudioParams, p: AudioParams, s: Surroundings): AudioParams {
    if old_.url != p.url then p.(chans := ChannelsFor(p.chans, s.media, s.defs)) else p
  }

  class AudioController {
    const dbLin: real -> real
    var params: AudioParams
    var url: Option<bool>
    var file: FileState
    var rd: Option<AudioRunning>

    constructor (dbLin: real -> real)
      ensures Valid() && rd == None && params == AudioParams(None, [], 0.0) && file == NoFile && this.dbLin == dbLin
    {
      this.dbLin := dbLin;
      params, url, file, rd := AudioParams(None, [], 0.0), None, NoFile, None;
    }

    ghost predicate Valid()
      reads this
    {
      rd.Some? ==> ProperSenders(rd.value.senders)
    }

    function Verify(mixer: MixerChannels): seq<ParameterError>
      reads this
    {
      VerifyAudio(params, url, file, mixer)
    }

    /** A changed URL is parsed and its file opened; a loaded cue's levels follow at once. */
    method SetParams(p: AudioParams, s: Surroundings)
      requires Valid()
      requires (s.parsed.Some? <==> p.url.Some?) && (s.media.NoFile? <==> s.parsed != Some(true))
      modifies this`params, this`url, this`file
      modifies if rd.Some? then Fade.VolumeCells(rd.value.senders) + Fade.MasterCells(rd.value.senders) else {}
      ensures Valid() && rd == old(rd)
      ensures params == NormalisedAudio(old(params), p, s)
      ensures url == (if old(params).url != p.url then s.parsed else old(url))
      ensures file == (if old(params).url != p.url then s.media else old(file))
      ensures rd.Some? ==> ViewsOf(rd.value.senders) == LevelledViews(old(ViewsOf(rd.value.senders)), params, dbLin)
      ensures params.url == p.url && params.masterVol == p.masterVol && (old(params).url == p.url ==> params == p)
      ensures old(params).url != p.url && s.media.Opened? ==> |params.chans| >= s.media.channels
      ensures rd.Some? ==> forall i :: 0 <= i < |rd.value.senders| ==>
                var v := rd.value.senders[i].player.View();
                && v == old(rd.value.senders[i].player.View()).(volume := v.volume, master := Raw(dbLin(p.masterVol)))
                && v.volume == if i < |params.chans| then Raw(dbLin(params.chans[i].vol))
                               else old(rd.value.senders[i].player.volume.param)
    {
      var next := p;
      if params.url != p.url {
        url := s.parsed;
        file := s.media;
        next := next.(chans := ChannelsFor(p.chans, file, s.defs));
      }
      if rd.Some? {
        SetLevels(rd.value.senders, next);
      }
      params := next;
    }

    method SetLevels(senders: seq<Sender>, p: AudioParams)
      requires ProperSenders(senders)
      modifies Fade.VolumeCells(senders), Fade.MasterCells(senders)
      ensures ViewsOf(senders) == LevelledViews(old(ViewsOf(senders)), p, dbLin)
    {
      var i := 0;
      while i < |p.chans|
        invariant i <= |p.chans|
        invariant forall j :: 0 <= j < |senders| ==>
                    senders[j].player.volume.param ==
                      if j < i then Raw(dbLin(p.chans[j].vol)) else old(senders[j].player.volume.param)
      {
        if i < |senders| {
          senders[i].player.volume.param := Raw(dbLin(p.chans[i].vol));
        }
        i := i + 1;
      }
      senders[0].player.master.param := Raw(dbLin(p.masterVol));
    }

    /** The file is taken, the same URL is opened again for next time. `rd` is replaced only when
        every patch was found. */
    method Load(w: World) returns (r: Result<bool, AudioError>)
      requires file.Opened? ==> file.channels >= 1
      requires Valid()
      modifies this`file, this`rd, w.engine.control
      ensures Valid()
      ensures r.Ok? <==> old(file).Opened? && PatchesExist(params.chans, old(file).channels, w.mixer)
      ensures r.Err? ==> rd == old(rd)
      ensures r.Ok? ==> rd.Some? && fresh(StreamCells(rd.value.senders))
      ensures r.Ok? ==>
                && r.value && rd.Some? && |rd.value.senders| == old(file).channels
                && rd.value.startTime == 0 && rd.value.est == old(file).duration && file == w.reopened
                && (forall i :: 0 <= i < |rd.value.senders| ==> rd.value.senders[i].sampleRate == old(file).rate)
                && ViewsOf(rd.value.senders)
                     == LoadedViews(FirstIds(w.uuids, old(file).channels), params.chans, w.mixer)
                && w.engine.control.items == old(w.engine.control.items) + Announced(rd.value.senders)
      ensures r.Ok? ==> PatchedAsConfigured(rd.value.senders, params.chans, w.mixer)
    {
      hide ViewsOf, NewViews, LoadedViews, PatchedViews, ProperSenders, Unpatched, FirstIds, PatchesExist,
        PatchedAsConfigured, Announced;
      var mf := file;
      file := NoFile;
      if !mf.Opened? {
        return Err(FileDisappeared);
      }
      file := w.reopened;
      var senders := NewSenders(w.engine, mf.channels, mf.rate, w.uuids);
      LoadedArePatched(FirstIds(w.uuids, mf.channels), params.chans, w.mixer);
      var patched := PatchSenders(senders, w.mixer);
      if !patched {
        return Err(ChannelDisappeared);
      }
      LoadedGoWhereConfigured(senders, FirstIds(w.uuids, mf.channels), params.chans, w.mixer);
      rd := Some(AudioRunning(senders, 0, mf.duration));
      r := Ok(true);
    }

    method PatchSenders(senders: seq<Sender>, mixer: MixerChannels) returns (patched: bool)
      requires ProperSenders(senders) && Unpatched(ViewsOf(senders))
      modifies Players(senders)
      ensures patched <==> PatchesExist(params.chans, |senders|, mixer)
      ensures patched ==> ViewsOf(senders) == PatchedViews(old(ViewsOf(senders)), params.chans, mixer)
    {
      hide PatchFor;
      ghost var views := ViewsOf(senders);
      var i := 0;
      while i < |senders|
        invariant i <= |senders| && PatchesExist(params.chans, i, mixer)
        invariant forall j :: 0 <= j < |senders| ==>
                    senders[j].player.View() == if j < i
                      then views[j].(outputPatch := PatchFor(params.chans, j, mixer)) else views[j]
      {
        var found := PatchSender(senders[i], i, mixer, views[i]);
        if !found {
          return false;
        }
        i := i + 1;
      }
      patched := true;
    }

    method PatchSender(s: Sender, i: nat, mixer: MixerChannels, ghost view: Player.PlayerState) returns (found: bool)
      requires s.player.View() == view && view.outputPatch == NO_PATCH
      modifies s.player
      ensures found <==> (i < |params.chans| && params.chans[i].patch.Some? ==> params.chans[i].patch.value in mixer)
      ensures found ==> s.player.View() == view.(outputPatch := PatchFor(params.chans, i, mixer))
    {
      if i < |params.chans| && params.chans[i].patch.Some? {
        if params.chans[i].patch.value !in mixer {
          return false;
        }
        s.SetOutputPatch(mixer[params.chans[i].patch.value]);
      }
      found := true;
    }

    /** The first execution sets the volumes; every execution starts all senders at `time`. */
    method Execute(time: nat)
      requires Valid()
      modifies this`rd
      modifies if rd.Some? then Players(rd.value.senders) + Fade.VolumeCells(rd.value.senders) else {}
      ensures Valid()
      ensures old(rd).None? ==> rd == None
      ensures old(rd).Some? ==>
                && rd == Some(old(rd).value.(startTime := time))
                && ViewsOf(rd.value.senders) ==
                   StartedViews(old(ViewsOf(rd.value.senders)), time, old(rd).value.startTime == 0, params, dbLin)
      ensures old(rd).Some? ==> forall i :: 0 <= i < |rd.value.senders| ==>
                var v := rd.value.senders[i].player.View();
                && v == old(rd.value.senders[i].player.View()).(active := true, startTime := time, volume := v.volume)
                && v.volume == if old(rd).value.startTime == 0 && i < |params.chans|
                     then Raw(dbLin(params.chans[i].vol))
                               else old(rd.value.senders[i].player.volume.param)
    {
      ghost var views := if rd.Some? then ViewsOf(rd.value.senders) else [];
      if rd.Some? {
        StartSenders(rd.value.senders, time);
        rd := Some(rd.value.(startTime := time));
        assert forall i :: 0 <= i < |rd.value.senders| ==>
                 rd.value.senders[i].player.View() == ViewsOf(rd.value.senders)[i]
                   && old(rd.value.senders[i].player.View()) == views[i];
      }
    }

    method StartSenders(senders: seq<Sender>, time: nat)
      requires rd.Some? && ProperSenders(senders)
      modifies Players(senders), Fade.VolumeCells(senders)
      ensures ViewsOf(senders) == StartedViews(old(ViewsOf(senders)), time, rd.value.startTime == 0, params, dbLin)
    {
      ghost var views := ViewsOf(senders);
      ghost var after := StartedViews(views, time, rd.value.startTime == 0, params, dbLin);
      var i := 0;
      while i < |senders|
        invariant i <= |senders|
        invariant forall j :: 0 <= j < |senders| ==> senders[j].player.View() == if j < i then after[j] else views[j]
      {
        StartSender(senders[i], i, time);
        i := i + 1;
      }
    }

    method StartSender(s: Sender, i: nat, time: nat)
      requires rd.Some? && s.player.volume != s.player.master
      modifies s.player`startTime, s.player`active, s.player.volume
      ensures
        var view := old(s.player.View());
        s.player.View() ==
          view.(active := true, startTime := time,
                volume := if rd.value.startTime == 0 then VolumeFor(params, dbLin, i, view.volume) else view.volume)
    {
      if rd.value.startTime == 0 && i < |params.chans| {
        s.player.volume.param := Raw(dbLin(params.chans[i].vol));
      }
      s.SetStartTime(time);
      s.SetActive(true);
    }

    method Pause() returns (paused: bool)
      requires Valid()
      modifies if rd.Some? then Players(rd.value.senders) else {}
      ensures Valid() && paused == rd.Some?
      ensures rd.Some? ==> ViewsOf(rd.value.senders) == PausedViews(old(ViewsOf(rd.value.senders)))
      ensures rd.Some? ==> forall i :: 0 <= i < |rd.value.senders| ==>
                rd.value.senders[i].player.View() == old(rd.value.senders[i].player.View()).(active := false)
    {
      if rd.None? {
        return false;
      }
      var senders := rd.value.senders;
      ghost var views := ViewsOf(senders);
      var i := 0;
      while i < |senders|
        invariant i <= |senders|
        invariant forall j :: 0 <= j < |senders| ==>
                    senders[j].player.View() == if j < i then views[j].(active := false) else views[j]
      {
        senders[i].SetActive(false);
        i := i + 1;
      }
      paused := true;
    }

    method Reset()
      modifies this`rd
      ensures rd == None && Valid()
    {
      rd := None;
    }

    /** Elapsed time is the first sender's position, in whole milliseconds. */
    function Info(): Option<DurationInfoInt>
      requires Valid() && (rd.Some? ==> rd.value.senders[0].sampleRate > 0)
      reads this, if rd.Some? && rd.value.senders != [] then {rd.value.senders[0].player} else {}
    {
      match rd
      case None => None
      case Some(r) => Some(DurationInfoInt(r.senders[0].PositionMillis() * 1_000_000, r.startTime, Some(r.est)))
    }
  }

  /** The clock position once `ms` whole milliseconds have elapsed. */
  lemma MillisecondClock(ms: nat, rate: nat, startTime: nat)
    ensures
      var now := startTime + ms * 1_000_000;
      && Player.IdealPosition(now, startTime, rate) == ms * rate / 1000
      && Player.ClockPosition(now, startTime, rate) <= ms * rate / 1000
      && (ms * 1_000_000 * rate < U64 ==> Player.ClockPosition(now, startTime, rate) == ms * rate / 1000)
  {
    var now := startTime + ms * 1_000_000;
    var product := (now - startTime) * rate;
    assert product == (ms * rate) * 1_000_000;
    ScaleDivision(ms * rate);
    assert product % U64 <= product;
  }

  lemma ScaleDivision(x: nat)
    ensures x * 1_000_000 / Player.ONE_SECOND_IN_NANOSECONDS == x / 1000
  {
  }

  lemma MillisecondSamples(lead: nat, ms: nat, fileRate: nat, rate: nat)
    requires fileRate > 0 && ms * fileRate <= lead * 1000 < (ms + 1) * fileRate
    ensures rate <= fileRate ==> ms * rate / 1000 <= lead
    ensures rate == fileRate ==> (lead - ms * rate / 1000) * 1000 < rate + 1000
  {
    assert (ms + 1) * fileRate == ms * fileRate + fileRate;
    if rate <= fileRate {
      MulMonotone(ms, rate, fileRate);
    }
  }

  lemma MulMonotone(m: nat, a: nat, b: nat)
    requires a <= b
    ensures m * a <= m * b
  {
  }

  /** A stream resumed so that the cue's whole milliseconds have elapsed: in a callback at that time,
      at any rate, the clock stands at those milliseconds' samples. Nothing is skipped unless the clock
      is ahead of the stream; at the file's rate it is at most a millisecond behind the cue's first
      sender, whose position gave the milliseconds. */
  lemma ResumeSkips(p: Player.PlayerState, lead: nat, ms: nat, fileRate: nat, now: nat, rate: nat, nframes: nat,
                    slot: Player.SlotView)
    requires fileRate > 0 && ms * fileRate <= lead * 1000 < (ms + 1) * fileRate
    requires p.startTime == now - ms * 1_000_000
    ensures Player.IdealPosition(now, p.startTime, rate) == ms * rate / 1000
    ensures p.alive && p.active && p.buf != [] && ms * 1_000_000 * rate < U64 ==>
              (Player.Step(p, now, rate, nframes, slot).skipped == [] <==> ms * rate / 1000 <= p.position)
    ensures rate <= fileRate && lead <= p.position ==> Player.Step(p, now, rate, nframes, slot).skipped == []
    ensures rate == fileRate ==> ms * rate / 1000 <= lead && (lead - ms * rate / 1000) * 1000 < rate + 1000
  {
    MillisecondClock(ms, rate, p.startTime);
    MillisecondSamples(lead, ms, fileRate, rate);
    hide Player.ClockPosition, Player.IdealPosition;
  }

  /** For instance a second of a 48 kHz file, resumed on a 96 kHz device: the clock stands at sample 96000. */
  lemma LowerRateSkips(p: Player.PlayerState, now: nat, nframes: nat, slot: Player.SlotView)
    requires p.alive && p.active && p.buf != [] && p.position == 48_000 && p.startTime == now - 1000 * 1_000_000
    ensures Player.Step(p, now, 96_000, nframes, slot).skipped != []
  {
    ResumeSkips(p, 48_000, 1000, 48_000, now, 96_000, nframes, slot);
  }

  /** A cue that was loaded and started plays at full master level: the configured one is set only by new
      parameters while it is loaded. So it has the configured level if and only if that is full. */
  lemma ConfiguredMasterIff(ids: seq<nat>, p: AudioParams, mixer: MixerChannels, dbLin: real -> real, time: nat, i: nat)
    requires i < |ids|
    ensures
      var views := StartedViews(LoadedViews(ids, p.chans, mixer), time, true, p, dbLin);
      && views[i].volume == VolumeFor(p, dbLin, i, Raw(1.0))
      && (views[i].master == LevelledViews(views, p, dbLin)[i].master <==> dbLin(p.masterVol) == 1.0)
  {
    assert LoadedViews(ids, p.chans, mixer)[i] == NewView(PatchFor(p.chans, i, mixer), ids[i]);
  }
}
