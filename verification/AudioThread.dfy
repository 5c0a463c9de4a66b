/** The audio thread's objects, updated in place: `Player`, `DeviceContext` and the command queue.
    Every method is tied to the callback functions of module Device. */
module AudioThread {
  import opened Containers
  import opened ChannelTable
  import opened Param
  import opened Player
  import opened Device

  /** A stream, with the cells its sender shares. */
  class StreamPlayer {
    var buf: seq<real>
    const capacity: nat
    var startTime: nat
    var position: nat
    var active: bool
    var alive: bool
    var killWhenEmpty: bool
    var outputPatch: nat
    const volume: VolumeCell
    const master: VolumeCell
    const uuid: nat
    var halfSent: bool
    var emptySent: bool

    constructor (capacity: nat, patch: nat, volume: VolumeCell, master: VolumeCell, uuid: nat)
      ensures View() == PlayerState([], capacity, 0, 0, false, false, false, patch, volume.param, master.param, uuid,
                                    false, false)
      ensures this.volume == volume && this.master == master
    {
      buf, this.capacity, this.uuid := [], capacity, uuid;
      startTime, position, outputPatch := 0, 0, patch;
      active, alive, killWhenEmpty, halfSent, emptySent := false, false, false, false, false;
      this.volume, this.master := volume, master;
    }

    function View(): PlayerState
      reads this, volume, master
    {
      PlayerState(buf, capacity, startTime, position, active, alive, killWhenEmpty, outputPatch,
                  volume.param, master.param, uuid, halfSent, emptySent)
    }

    lemma AliveInView()
      ensures View().alive == alive
    {
    }

    /** Drops as many samples as there are, up to n, and says how many. */
    method SkipN(n: nat) returns (k: nat)
      modifies this`buf
      ensures k == (if n <= |old(buf)| then n else |old(buf)|)
      ensures buf == old(buf)[k..]
    {
      k := if n <= |buf| then n else |buf|;
      buf := buf[k..];
    }

    method TryPop() returns (x: Option<real>)
      modifies this`buf
      ensures old(buf) == [] ==> x == None && buf == []
      ensures old(buf) != [] ==> x == Some(old(buf)[0]) && buf == old(buf)[1..]
    {
      if buf == [] {
        return None;
      }
      x := Some(buf[0]);
      buf := buf[1..];
    }
  }

  datatype AudioThreadCommand =
    | CmdAddPlayer(player: StreamPlayer)
    | CmdAddChannel(port: nat)
    | CmdRemoveChannel(slot: nat)

  function CommandView(c: AudioThreadCommand): Command
    reads if c.CmdAddPlayer? then {c.player, c.player.volume, c.player.master} else {}
  {
    match c
    case CmdAddPlayer(p) => AddPlayer(p.View())
    case CmdAddChannel(port) => AddChannel(port)
    case CmdRemoveChannel(slot) => RemoveChannel(slot)
  }

  class ControlQueue {
    var items: seq<AudioThreadCommand>

    constructor ()
      ensures items == []
    {
      items := [];
    }

    method Push(c: AudioThreadCommand)
      modifies this
      ensures items == old(items) + [c]
    {
      items := items + [c];
    }

    method TryPop() returns (c: Option<AudioThreadCommand>)
      modifies this
      ensures old(items) == [] ==> c == None && items == []
      ensures old(items) != [] ==> c == Some(old(items)[0]) && items == old(items)[1..]
    {
      if items == [] {
        return None;
      }
      c := Some(items[0]);
      items := items[1..];
    }
  }

  ghost function Cells(ps: seq<StreamPlayer>): set<object> {
    (set p | p in ps :: p.volume) + (set p | p in ps :: p.master)
  }

  ghost function Views(ps: seq<StreamPlayer>): (r: seq<PlayerState>)
    reads ps, Cells(ps)
    ensures |r| == |ps|
    ensures forall j :: 0 <= j < |ps| ==> r[j] == ps[j].View()
  {
    seq(|ps|, j requires 0 <= j < |ps| reads ps, Cells(ps) => assert ps[j] in ps; ps[j].View())
  }

  type PortArrays = map<nat, array<real>>

  ghost function BufView(out: PortArrays): Buffers
    reads out.Values
  {
    map port | port in out :: out[port][..]
  }

  /** JACK gives every port its own buffer of the callback's length. */
  ghost predicate ProperPorts(out: PortArrays, nframes: nat) {
    && (forall port :: port in out ==> out[port].Length == nframes)
    && (forall a, b :: a in out && b in out && a != b ==> out[a] != out[b])
  }

  lemma BuffersOfPorts(out: PortArrays, nframes: nat)
    requires ProperPorts(out, nframes)
    ensures BuffersSized(BufView(out), nframes)
  {
  }

  method MixInto(player: StreamPlayer, buf: array<real>, written: bool, vol: real, master: real, position: nat)
    returns (pos: nat)
    requires |player.buf| >= buf.Length
    modifies player`buf, buf
    ensures pos == position + buf.Length
    ensures player.buf == old(player.buf)[buf.Length..]
    ensures buf[..] == MixBuffer(old(buf[..]), old(player.buf)[..buf.Length], vol, master, written)
    ensures forall j :: 0 <= j < buf.Length ==>
              Clipped((if written then old(buf[j]) else 0.0) + old(player.buf)[j] * vol * master, buf[j])
  {
    pos := position;
    var k := 0;
    while k < buf.Length
      invariant k <= buf.Length && pos == position + k
      invariant player.buf == old(player.buf)[k..]
      invariant forall j :: k <= j < buf.Length ==> buf[j] == old(buf[j])
      invariant forall j :: 0 <= j < k ==>
                  buf[j] == Clamp(if written then old(buf[j]) + Scaled(old(player.buf)[j], vol, master)
                                  else Scaled(old(player.buf)[j], vol, master))
    {
      var data := player.TryPop();
      if data.Some? {
        if written {
          buf[k] := buf[k] + Scaled(data.value, vol, master);
        } else {
          buf[k] := Scaled(data.value, vol, master);
        }
        if buf[k] > 1.0 { buf[k] := 1.0; }
        if buf[k] < -1.0 { buf[k] := -1.0; }
        pos := pos + 1;
      }
      k := k + 1;
    }
  }

  class DeviceContext {
    var players: seq<StreamPlayer>
    var chans: Channels
    var holes: seq<nat>
    const control: ControlQueue
    var length: int
    var sent: seq<Message>
    const sampleRate: nat
    const limits: Limits

    constructor (control: ControlQueue, sampleRate: nat, limits: Limits)
      ensures View() == DeviceState([], Table([], []), 0) && sent == []
      ensures this.control == control && this.sampleRate == sampleRate && this.limits == limits
    {
      players, chans, holes, length, sent := [], [], [], 0, [];
      this.control, this.sampleRate, this.limits := control, sampleRate, limits;
    }

    ghost function View(): DeviceState
      reads this, players, Cells(players)
    {
      DeviceState(Views(players), Table(chans, holes), length)
    }

    ghost predicate PlayersDistinct()
      reads this
    {
      forall i, j :: 0 <= i < j < |players| ==> players[i] != players[j]
    }

    method HandleCommand(cmd: AudioThreadCommand)
      requires cmd.CmdAddChannel? ==> HeadHoleExists(Table(chans, holes))
      requires cmd.CmdAddPlayer? ==> cmd.player !in players
      requires PlayersDistinct()
      modifies this`players, this`chans, this`holes, this`length, this`sent
      modifies if cmd.CmdAddPlayer? then {cmd.player} else {}
      ensures PlayersDistinct()
      ensures players == old(players) || (cmd.CmdAddPlayer? && players == old(players) + [cmd.player])
      ensures View() == Handle(old(View()), limits, old(CommandView(cmd))).0
      ensures sent == old(sent) + Handle(old(View()), limits, old(CommandView(cmd))).1
    {
      match cmd
      case CmdAddPlayer(p) =>
        if |players| < limits.maxPlayers {
          players := Push(players, limits.maxPlayers, p);
          length := length + 1;
          players[|players| - 1].alive := true;
          sent := sent + [PlayerAdded(p.uuid)];
        } else {
          sent := sent + [PlayerRejected(p.uuid)];
        }
      case CmdAddChannel(port) =>
        var ch := DeviceChannel(port, 0, 0);
        if holes != [] {
          var ix := holes[0];
          holes := RemoveAt(holes, 0);
          chans := chans[ix := Some(ch)];
        } else {
          chans := Push(chans, limits.maxChans, Some(ch));
        }
      case CmdRemoveChannel(slot) =>
        chans := Push(chans, limits.maxChans, None);
        chans := SwapRemove(chans, slot);
        holes := Push(holes, limits.maxChans, slot);
    }

    method CatchUp(player: StreamPlayer, delta: nat) returns (pos: nat)
      modifies player`buf
      ensures pos == player.position + SkipCount(old(player.View()), delta)
      ensures player.buf == old(player.buf)[SkipCount(old(player.View()), delta)..]
    {
      pos := player.position;
      if pos < delta {
        var k := player.SkipN(delta - pos);
        pos := pos + k;
      }
    }

    method ReportUnderrun(player: StreamPlayer, pos: nat)
      modifies this`sent, player
      ensures player.View() == RunDry(old(player.View())).0.(position := pos)
      ensures sent == old(sent) + RunDry(old(player.View())).1
    {
      if player.killWhenEmpty {
        player.alive := false;
      } else if !player.emptySent {
        sent := sent + [PlayerBufEmpty(player.uuid)];
        player.emptySent := true;
      }
      player.position := pos;
    }

    method LatchHalf(player: StreamPlayer)
      modifies this`sent, player`halfSent
      ensures player.View() == HalfLatch(old(player.View())).0
      ensures sent == old(sent) + HalfLatch(old(player.View())).1
    {
      if |player.buf| * 2 < player.capacity && !player.halfSent {
        sent := sent + [PlayerBufHalf(player.uuid)];
        player.halfSent := true;
      } else if |player.buf| * 2 >= player.capacity && player.halfSent {
        player.halfSent := false;
      }
    }

    /** A started player up to the point where it would render. */
    method Prepare(player: StreamPlayer, delta: nat, nframes: nat) returns (ready: bool, pos: nat)
      modifies this`sent, player
      ensures
        var routed := old(player.outputPatch < |chans| && chans[player.outputPatch].Some?);
        var r := Prepared(old(player.View()), delta, nframes, routed);
        && player.View() == r.player && ready == r.exit.Rendered? && pos == r.pos && sent == old(sent) + r.sent
    {
      hide RunDry, HalfLatch;
      ghost var p := player.View();
      ghost var q := p.(buf := p.buf[SkipCount(p, delta)..]);
      pos := CatchUp(player, delta);
      assert player.View() == q;
      if pos < delta || |player.buf| < nframes {
        ReportUnderrun(player, pos);
        return false, pos;
      }
      LatchHalf(player);
      if player.outputPatch >= |chans| || chans[player.outputPatch].None? {
        sent := sent + [PlayerInvalidOutpatch(player.uuid)];
        player.active := false;
        return false, pos;
      }
      ready := true;
    }

    /** Mixes a ready player into its port's buffer, if JACK hands the buffer out. */
    method Render(player: StreamPlayer, position: nat, now: nat, nframes: nat, out: PortArrays)
      requires ProperPorts(out, nframes) && |player.buf| >= nframes
      requires player.outputPatch < |chans| && chans[player.outputPatch].Some?
      modifies this`chans, player`buf, player`position, out.Values
      ensures (player.View(), Mixing(chans, BufView(out))) ==
              old(RenderPlayer(Mixing(chans, BufView(out)), player.View(), position, nframes, now))
    {
      hide MixBuffer, Get;
      ghost var bufs := BufView(out);
      var pos := position;
      var vol, masterVol := Get(player.volume.param, now), Get(player.master.param, now);
      var ch := chans[player.outputPatch].value;
      if ch.port in out {
        var written := now == ch.writtenT;
        if !written {
          chans := chans[player.outputPatch := Some(ch.(writtenT := now))];
        }
        pos := MixInto(player, out[ch.port], written, vol, masterVol, pos);
        assert BufView(out) == bufs[ch.port := out[ch.port][..]];
        assert chans == old(chans)[player.outputPatch := Some(ch.(writtenT := now))];
      }
      player.position := pos;
      assert ch.port !in out ==> BufView(out) == bufs;
    }

    method ScanStarted(player: StreamPlayer, delta: nat, now: nat, nframes: nat, out: PortArrays)
      requires ProperPorts(out, nframes)
      modifies this`chans, this`sent, player, out.Values
      ensures
        var p, m := old(player.View()), old(Mixing(chans, BufView(out)));
        var o := Deliver(p, delta, nframes, SlotOf(m.chans, m.out, p.outputPatch));
        && player.View() == o.player
        && sent == old(sent) + o.sent
        && Mixing(chans, BufView(out)) == MixOutcome(m, p, o, now)
    {
      hide RenderPlayer, MixBuffer, Get, Deliver, Prepared, MixOutcome, BufView, ProperPorts;
      ghost var p, m := player.View(), Mixing(chans, BufView(out));
      DeliverMixes(m, p, delta, nframes, now);
      var ready, pos := Prepare(player, delta, nframes);
      if ready {
        Render(player, pos, now, nframes, out);
      }
    }

    method ScanPlayer(player: StreamPlayer, now: nat, nframes: nat, out: PortArrays)
      requires ProperPorts(out, nframes)
      modifies this`chans, this`sent, player, out.Values
      ensures
        var env := Env(now, sampleRate, nframes);
        var o := old(Play(player.View(), chans, BufView(out), env));
        && player.View() == o.player
        && sent == old(sent) + o.sent
        && Mixing(chans, BufView(out)) == old(MixPlayer(Mixing(chans, BufView(out)), player.View(), env))
    {
      if !player.alive || !player.active {
        return;
      }
      if player.startTime > now {
        player.position := 0;
        return;
      }
      ScanStarted(player, ClockPosition(now, player.startTime, sampleRate), now, nframes, out);
    }

    /** One player's step, as the next step of the scan of players `ps` from state m. */
    method ScanNext(player: StreamPlayer, i: nat, now: nat, nframes: nat, out: PortArrays,
                    ghost ps: seq<PlayerState>, ghost m: Mixing, ghost sent0: seq<Message>)
      requires ProperPorts(out, nframes) && BuffersSized(m.out, nframes)
      requires i < |ps| && player.View() == ps[i]
      requires Mixing(chans, BufView(out)) == ScanMix(ps, i, m, Env(now, sampleRate, nframes))
      requires sent == sent0 + SentBy(ps, i, m.chans, m.out, Env(now, sampleRate, nframes))
      modifies this`chans, this`sent, player, out.Values
      ensures player.View() == Play(ps[i], m.chans, m.out, Env(now, sampleRate, nframes)).player
      ensures Mixing(chans, BufView(out)) == ScanMix(ps, i + 1, m, Env(now, sampleRate, nframes))
      ensures sent == sent0 + SentBy(ps, i + 1, m.chans, m.out, Env(now, sampleRate, nframes))
    {
      hide Play, MixPlayer, BufView, StreamPlayer.View;
      ghost var env := Env(now, sampleRate, nframes);
      ghost var before := Mixing(chans, BufView(out));
      ScanKeepsPorts(ps, i, m, env);
      PlayDependsOnPorts(ps[i], before, m, env);
      ScanPlayer(player, now, nframes, out);
    }

    /** The same inside the player table: no other player changes. */
    method ScanAt(i: nat, now: nat, nframes: nat, out: PortArrays,
                  ghost ps: seq<PlayerState>, ghost m: Mixing, ghost sent0: seq<Message>)
      returns (dead: bool)
      requires ProperPorts(out, nframes) && BuffersSized(m.out, nframes) && PlayersDistinct()
      requires i < |players| == |ps|
      requires Mixing(chans, BufView(out)) == ScanMix(ps, i, m, Env(now, sampleRate, nframes))
      requires sent == sent0 + SentBy(ps, i, m.chans, m.out, Env(now, sampleRate, nframes))
      requires Views(players) == Stepped(ps, i, m.chans, m.out, Env(now, sampleRate, nframes))
      modifies this`chans, this`sent, players[i], out.Values
      ensures dead == !ps[i].alive
      ensures Views(players) == Stepped(ps, i + 1, m.chans, m.out, Env(now, sampleRate, nframes))
      ensures Mixing(chans, BufView(out)) == ScanMix(ps, i + 1, m, Env(now, sampleRate, nframes))
      ensures sent == sent0 + SentBy(ps, i + 1, m.chans, m.out, Env(now, sampleRate, nframes))
    {
      hide Play, MixPlayer, ScanMix, SentBy, BufView, ProperPorts, StreamPlayer.View;
      players[i].AliveInView();
      dead := !players[i].alive;
      ghost var views := Views(players);
      SteppedAt(ps, i, m.chans, m.out, Env(now, sampleRate, nframes), i);
      assert players[i].View() == views[i] == ps[i];
      ScanNext(players[i], i, now, nframes, out, ps, m, sent0);
      assert forall j :: 0 <= j < |players| && j != i ==> players[j].View() == views[j];
      assert Views(players) == views[i := players[i].View()];
    }

    /** The scan: every player takes its step in order, the first dead one is remembered. */
    method ScanPlayers(now: nat, nframes: nat, out: PortArrays) returns (toRemove: Option<nat>)
      requires ProperPorts(out, nframes) && PlayersDistinct()
      modifies this`chans, this`sent, players, out.Values
      ensures
        var env := Env(now, sampleRate, nframes);
        var ps, m := old(Views(players)), old(Mixing(chans, BufView(out)));
        && toRemove == FirstDead(ps)
        && Views(players) == Stepped(ps, |ps|, m.chans, m.out, env)
        && Mixing(chans, BufView(out)) == ScanMix(ps, |ps|, m, env)
        && sent == old(sent) + SentBy(ps, |ps|, m.chans, m.out, env)
    {
      hide ScanMix, SentBy, Stepped, FirstDeadBelow, FirstDeadFrom, StreamPlayer.View, BufView, ProperPorts;
      ghost var env := Env(now, sampleRate, nframes);
      ghost var ps, m := Views(players), Mixing(chans, BufView(out));
      BuffersOfPorts(out, nframes);
      ScanBegins(ps, m, env);
      toRemove := None;
      var idx := 0;
      while idx < |players|
        invariant idx <= |players|
        invariant Views(players) == Stepped(ps, idx, m.chans, m.out, env)
        invariant Mixing(chans, BufView(out)) == ScanMix(ps, idx, m, env)
        invariant sent == old(sent) + SentBy(ps, idx, m.chans, m.out, env)
        invariant toRemove == FirstDeadBelow(ps, idx)
      {
        var dead := ScanAt(idx, now, nframes, out, ps, m, old(sent));
        NextDead(ps, idx);
        if dead && toRemove.None? {
          toRemove := Some(idx);
        }
        idx := idx + 1;
      }
      FirstDeadIsBelow(ps, |ps|);
    }

    method Reap(toRemove: Option<nat>)
      requires toRemove.Some? ==> toRemove.value < |players|
      requires PlayersDistinct()
      modifies this`players, this`length, this`sent
      ensures PlayersDistinct()
      ensures toRemove.None? ==> Views(players) == old(Views(players)) && length == old(length) && sent == old(sent)
      ensures toRemove.Some? ==>
                && Views(players) == SwapRemove(old(Views(players)), toRemove.value)
                && length == old(length) - 1
                && sent == old(sent) + [PlayerRemoved(old(Views(players))[toRemove.value].uuid)]
    {
      if toRemove.Some? {
        sent := sent + [PlayerRemoved(players[toRemove.value].uuid)];
        players := SwapRemove(players, toRemove.value);
        length := length - 1;
      }
    }

    method ZeroStale(now: nat, nframes: nat, out: PortArrays)
      requires ProperPorts(out, nframes)
      modifies this`chans, out.Values
      ensures Mixing(chans, BufView(out)) == old(ZeroPass(Mixing(chans, BufView(out)), |chans|, now))
      ensures Views(players) == old(Views(players))
    {
      ghost var m := Mixing(chans, BufView(out));
      var i := 0;
      while i < |chans|
        invariant i <= |chans| == |m.chans|
        invariant Mixing(chans, BufView(out)) == ZeroPass(m, i, now)
      {
        ZeroOneInPlace(i, now, nframes, out);
        i := i + 1;
      }
    }

    method ZeroOneInPlace(i: nat, now: nat, nframes: nat, out: PortArrays)
      requires i < |chans| && ProperPorts(out, nframes)
      modifies this`chans, out.Values
      ensures Mixing(chans, BufView(out)) == old(ZeroOne(Mixing(chans, BufView(out)), i, now))
    {
      if chans[i].Some? {
        var ch := chans[i].value;
        if ch.writtenT != now && ch.zeroedT < ch.writtenT {
          if ch.port in out {
            ghost var before := BufView(out);
            FillWithSilence(out[ch.port]);
            assert BufView(out) == before[ch.port := Silence(nframes)];
          }
          chans := chans[i := Some(ch.(zeroedT := now))];
        }
      }
    }

    method ProcessCallback(now: nat, nframes: nat, out: PortArrays)
      requires ProperPorts(out, nframes) && PlayersDistinct()
      requires control.items != [] ==>
                 var cmd := control.items[0];
                 (cmd.CmdAddChannel? ==> HeadHoleExists(Table(chans, holes)))
                   && (cmd.CmdAddPlayer? ==> cmd.player !in players)
      modifies this, control, players, out.Values
      modifies if control.items != [] && control.items[0].CmdAddPlayer? then {control.items[0].player} else {}
      ensures PlayersDistinct()
      ensures control.items == if old(control.items) == [] then [] else old(control.items)[1..]
      ensures
        var cmd := old(if control.items == [] then None else Some(CommandView(control.items[0])));
        var r := Callback(old(View()), limits, cmd, old(BufView(out)), Env(now, sampleRate, nframes));
        View() == r.device && BufView(out) == r.out && sent == old(sent) + r.sent
    {
      hide Handle, Process, CommandView, StreamPlayer.View;
      ghost var d, bufs := View(), BufView(out);
      ghost var c := if control.items == [] then None else Some(CommandView(control.items[0]));
      var cmd := control.TryPop();
      assert View() == d && BufView(out) == bufs;
      if cmd.Some? {
        assert CommandView(cmd.value) == c.value;
        HandleCommand(cmd.value);
        assert BufView(out) == bufs;
      }
      ProcessPlayers(now, nframes, out);
    }

    /** Everything after the command: scan, reap, zero. */
    method ProcessPlayers(now: nat, nframes: nat, out: PortArrays)
      requires ProperPorts(out, nframes) && PlayersDistinct()
      modifies this, players, out.Values
      ensures PlayersDistinct()
      ensures
        var r := Process(old(View()), old(BufView(out)), Env(now, sampleRate, nframes));
        View() == r.device && BufView(out) == r.out && sent == old(sent) + r.sent
    {
      hide Play, MixPlayer, SwapRemove, StreamPlayer.View, Stepped, ScanMix, SentBy, ZeroPass;
      var toRemove := ScanPlayers(now, nframes, out);
      Reap(toRemove);
      ZeroStale(now, nframes, out);
    }
  }

  method FillWithSilence(buf: array<real>)
    modifies buf
    ensures buf[..] == Silence(buf.Length)
  {
    var k := 0;
    while k < buf.Length
      invariant k <= buf.Length && forall j :: 0 <= j < k ==> buf[j] == 0.0
    {
      buf[k] := 0.0;
      k := k + 1;
    }
  }
}
