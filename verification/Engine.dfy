/** The main thread's side of the engine: `EngineContext` and the senders it hands out. */
module Engine {
  import opened Containers
  import opened ChannelTable
  import opened Param
  import opened Player
  import opened Device
  import opened AudioThread

  const STREAM_BUFFER_SIZE: nat := 100_000
  const NO_PATCH: nat := U64 - 1

  datatype EngineError = JackError | LimitExceeded | NoSuchChannel

  /** Controls a stream; it shares the stream's cells with the audio thread. */
  class Sender {
    const player: StreamPlayer
    const sampleRate: nat
    const original: bool

    constructor (player: StreamPlayer, sampleRate: nat, original: bool)
      ensures this.player == player && this.sampleRate == sampleRate && this.original == original
    {
      this.player, this.sampleRate, this.original := player, sampleRate, original;
    }

    method SetStartTime(time: nat)
      modifies player`startTime
      ensures player.startTime == time
      ensures player.View() == Advance(Track(old(player.View()), [], [], 0), sampleRate,
                                       Player.SetStartTime(time)).player
    {
      player.startTime := time;
    }

    method SetActive(active: bool)
      modifies player`active
      ensures player.active == active
      ensures player.View() == Advance(Track(old(player.View()), [], [], 0), sampleRate,
                                       Player.SetActive(active)).player
    {
      player.active := active;
    }

    method SetOutputPatch(patch: nat)
      modifies player`outputPatch
      ensures player.outputPatch == patch
      ensures player.View() == Advance(Track(old(player.View()), [], [], 0), sampleRate,
                                       Player.SetOutputPatch(patch)).player
    {
      player.outputPatch := patch;
    }

    method SetVolume(volume: Parameter)
      requires player.volume != player.master
      modifies player.volume
      ensures player.volume.param == volume
      ensures player.View() == Advance(Track(old(player.View()), [], [], 0), sampleRate,
                                       Player.SetVolume(volume)).player
    {
      player.volume.param := volume;
    }

    method SetMasterVolume(volume: Parameter)
      requires player.volume != player.master
      modifies player.master
      ensures player.master.param == volume
      ensures player.View() == Advance(Track(old(player.View()), [], [], 0), sampleRate, SetMaster(volume)).player
    {
      player.master.param := volume;
    }

    /** Back to the beginning; the start time moves to now so that the clock agrees. */
    method ResetPosition(now: nat)
      modifies player`startTime, player`position
      ensures player.startTime == now && player.position == 0
      ensures player.View() == Advance(Track(old(player.View()), [], [], 0), sampleRate,
                                       Player.ResetPosition(now)).player
    {
      SetStartTime(now);
      player.position := 0;
    }

    /** Position in milliseconds, as an exact floor. */
    function PositionMillis(): (ms: nat)
      requires sampleRate > 0
      reads player
      ensures ms * sampleRate <= player.position * 1000 < (ms + 1) * sampleRate
    {
      player.position * 1000 / sampleRate
    }

    /** Only dropping the original sender kills the stream. */
    method Drop()
      modifies player`active, player`alive
      ensures original ==> !player.active && !player.alive
      ensures original ==> player.View() == Advance(Track(old(player.View()), [], [], 0), sampleRate, DropSender).player
      ensures !original ==> player.View() == old(player.View())
    {
      if original {
        player.active := false;
        player.alive := false;
      }
    }
  }

  class EngineContext {
    var chans: seq<Option<nat>>
    var holes: seq<nat>
    const control: ControlQueue
    const maxChans: nat

    constructor (control: ControlQueue, maxChans: nat)
      requires maxChans >= 1
      ensures Valid() && View() == Table([], []) && this.control == control && this.maxChans == maxChans
    {
      chans, holes := [], [];
      this.control, this.maxChans := control, maxChans;
    }

    function View(): Table<nat>
      reads this
    {
      Table(chans, holes)
    }

    ghost predicate Valid()
      reads this
    {
      ChannelTable.Valid(View(), maxChans)
    }

    /** `registered` is what JACK answers to the port registration. A channel over the limit is
        refused only after its port has been registered. */
    method NewChannel(registered: Result<nat, EngineError>) returns (r: Result<nat, EngineError>)
      requires Valid()
      modifies this, control
      ensures Valid()
      ensures registered.Err? ==> r == Err(registered.error)
      ensures registered.Ok? ==> r.Ok? || r == Err(LimitExceeded)
      ensures registered.Ok? ==> (r.Err? <==> LiveCount(old(chans)) == maxChans - 1)
      ensures r.Err? ==> View() == old(View()) && control.items == old(control.items)
      ensures r.Ok? ==>
                && registered.Ok? && r.value == NextSlot(old(View())) && HeadHoleExists(old(View()))
                && View() == Add(old(View()), maxChans, registered.value)
                && Lookup(View(), r.value) == Some(registered.value)
                && control.items == old(control.items) + [CmdAddChannel(registered.value)]
    {
      FullMeansLive(View(), maxChans);
      if registered.Err? {
        return Err(registered.error);
      }
      var port := registered.value;
      if |chans| - |holes| == maxChans - 1 {
        return Err(LimitExceeded);
      }
      AddKeepsTable(View(), maxChans, port);
      var ret;
      if holes != [] {
        var ix := holes[0];
        holes := RemoveAt(holes, 0);
        chans := chans[ix := Some(port)];
        ret := ix;
      } else {
        ret := |chans|;
        chans := Push(chans, maxChans, Some(port));
      }
      control.Push(CmdAddChannel(port));
      r := Ok(ret);
    }

    /** `unregistered` is whether JACK gives the port up; the channel is gone either way. */
    method RemoveChannel(idx: nat, unregistered: bool) returns (r: Result<nat, EngineError>)
      requires Valid()
      modifies this, control
      ensures Valid()
      ensures r == Err(NoSuchChannel) <==> Lookup(old(View()), idx) == None
      ensures r == Err(NoSuchChannel) ==> View() == old(View()) && control.items == old(control.items)
      ensures r != Err(NoSuchChannel) ==>
                && View() == Remove(old(View()), maxChans, idx)
                && control.items == old(control.items) + [CmdRemoveChannel(idx)]
                && r == (if unregistered then Ok(Lookup(old(View()), idx).value) else Err(JackError))
    {
      if idx >= |chans| || idx in holes {
        return Err(NoSuchChannel);
      }
      RemoveKeepsTable(View(), maxChans, idx);
      chans := Push(chans, maxChans, None);
      holes := Push(holes, maxChans, idx);
      control.Push(CmdRemoveChannel(idx));
      var port := chans[idx];
      chans := SwapRemove(chans, idx);
      r := if unregistered then Ok(port.value) else Err(JackError);
    }

    /** The stream starts inactive, at position 0, at full volume and unpatched. Senders created with
        a master share its cell. */
    method NewSender(sampleRate: nat, master: Option<VolumeCell>, uuid: nat) returns (s: Sender)
      modifies control
      ensures fresh(s) && fresh(s.player) && fresh(s.player.volume) && s.original && s.sampleRate == sampleRate
      ensures match master case Some(m) => s.player.master == m
              case None => fresh(s.player.master) && s.player.master.param == Raw(1.0)
      ensures s.player.volume != s.player.master
      ensures s.player.View() == PlayerState([], STREAM_BUFFER_SIZE, 0, 0, false, false, false, NO_PATCH, Raw(1.0),
                                             s.player.master.param, uuid, false, false)
      ensures control.items == old(control.items) + [CmdAddPlayer(s.player)]
    {
      var volume := new VolumeCell(Raw(1.0));
      var masterVol;
      if master.Some? {
        masterVol := master.value;
      } else {
        masterVol := new VolumeCell(Raw(1.0));
      }
      var p := new StreamPlayer(STREAM_BUFFER_SIZE, NO_PATCH, volume, masterVol, uuid);
      control.Push(CmdAddPlayer(p));
      s := new Sender(p, sampleRate, true);
    }
  }
}
