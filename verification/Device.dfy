/** What one audio callback does to the device's tables and to the port buffers, and why its
    timestamp trick amounts to zeroing every buffer and mixing afresh. */
module Device {
  import opened Containers
  import opened ChannelTable
  import opened Param
  import opened Player

  datatype DeviceChannel = DeviceChannel(port: nat, writtenT: nat, zeroedT: nat)

  /** Buffers of the ports JACK hands out in this callback. */
  type Buffers = map<nat, seq<real>>

  datatype Env = Env(time: nat, rate: nat, nframes: nat)

  datatype Limits = Limits(maxPlayers: nat, maxChans: nat)

  datatype Command =
    | AddPlayer(player: PlayerState)
    | AddChannel(port: nat)
    | RemoveChannel(slot: nat)

  datatype DeviceState = DeviceState(players: seq<PlayerState>, table: Table<DeviceChannel>, length: int)

  type Channels = seq<Option<DeviceChannel>>

  // ---- commands ----

  function NewChannel(port: nat): DeviceChannel {
    DeviceChannel(port, 0, 0)
  }

  function Handle(d: DeviceState, limits: Limits, cmd: Command): (DeviceState, seq<Message>)
    requires cmd.AddChannel? ==> HeadHoleExists(d.table)
  {
    match cmd
    case AddPlayer(p) =>
      if |d.players| < limits.maxPlayers then
        (d.(players := d.players + [p.(alive := true)], length := d.length + 1), [PlayerAdded(p.uuid)])
      else
        (d, [PlayerRejected(p.uuid)])
    case AddChannel(port) => (d.(table := Add(d.table, limits.maxChans, NewChannel(port))), [])
    case RemoveChannel(slot) => (d.(table := Remove(d.table, limits.maxChans, slot)), [])
  }

  // ---- mixing ----

  function Clamp(x: real): real {
    if x > 1.0 then 1.0 else if x < -1.0 then -1.0 else x
  }

  function Scaled(data: real, vol: real, master: real): real {
    data * vol * master
  }

  function SlotOf(chans: Channels, out: Buffers, patch: nat): SlotView {
    if patch >= |chans| || chans[patch].None? then NoChannel
    else if chans[patch].value.port in out then Open
    else NoPortBuffer
  }

  function Play(p: PlayerState, chans: Channels, out: Buffers, env: Env): Outcome {
    Step(p, env.time, env.rate, env.nframes, SlotOf(chans, out, p.outputPatch))
  }

  /** The first writer of a callback overwrites, later ones add; every write is clamped. */
  function MixBuffer(buf: seq<real>, played: seq<real>, vol: real, master: real, written: bool): (r: seq<real>)
    ensures |r| == |buf|
  {
    seq(|buf|, k requires 0 <= k < |buf| =>
      if k < |played| then
        Clamp(if written then buf[k] + Scaled(played[k], vol, master) else Scaled(played[k], vol, master))
      else buf[k])
  }

  datatype Mixing = Mixing(chans: Channels, out: Buffers)

  /** Writes what a player delivered into its channel's buffer. */
  function MixOutcome(m: Mixing, p: PlayerState, o: Outcome, time: nat): Mixing
    requires o.exit.Rendered? ==> SlotOf(m.chans, m.out, p.outputPatch).Open?
  {
    if !o.exit.Rendered? then m
    else
      var ch := m.chans[p.outputPatch].value;
      var buf := MixBuffer(m.out[ch.port], o.played, Get(p.volume, time), Get(p.master, time), ch.writtenT == time);
      Mixing(m.chans[p.outputPatch := Some(ch.(writtenT := time))], m.out[ch.port := buf])
  }

  /** Mixes a player that is ready into its channel, if the port's buffer is there. */
  function RenderPlayer(m: Mixing, q: PlayerState, pos: nat, nframes: nat, time: nat): (PlayerState, Mixing)
    requires !SlotOf(m.chans, m.out, q.outputPatch).NoChannel? && |q.buf| >= nframes
  {
    if SlotOf(m.chans, m.out, q.outputPatch).NoPortBuffer? then (q.(position := pos), m)
    else
      var ch := m.chans[q.outputPatch].value;
      var buf := MixBuffer(m.out[ch.port], q.buf[..nframes], Get(q.volume, time), Get(q.master, time), ch.writtenT
                           == time);
      (q.(position := pos + nframes, buf := q.buf[nframes..]),
       Mixing(m.chans[q.outputPatch := Some(ch.(writtenT := time))], m.out[ch.port := buf]))
  }

  /** What becomes of a started player and its channel, from how far it got. */
  lemma DeliverMixes(m: Mixing, p: PlayerState, delta: nat, nframes: nat, time: nat)
    ensures
      var slot := SlotOf(m.chans, m.out, p.outputPatch);
      var r, o := Prepared(p, delta, nframes, !slot.NoChannel?), Deliver(p, delta, nframes, slot);
      && o.sent == r.sent && (o.exit.Rendered? ==> slot.Open?)
      && (r.exit.Rendered? ==> !slot.NoChannel? && |r.player.buf| >= nframes && r.player.outputPatch == p.outputPatch)
      && (o.player, MixOutcome(m, p, o, time)) ==
         if r.exit.Rendered? then RenderPlayer(m, r.player, r.pos, nframes, time) else (r.player, m)
  {
    hide MixBuffer, Get;
  }

  function MixPlayer(m: Mixing, p: PlayerState, env: Env): Mixing {
    MixOutcome(m, p, Play(p, m.chans, m.out, env), env.time)
  }

  function ScanMix(players: seq<PlayerState>, i: nat, m: Mixing, env: Env): Mixing
    requires i <= |players|
  {
    if i == 0 then m else MixPlayer(ScanMix(players, i - 1, m, env), players[i - 1], env)
  }

  function Silence(n: nat): seq<real> {
    seq(n, _ => 0.0)
  }

  predicate Stale(ch: DeviceChannel, time: nat) {
    ch.writtenT != time && ch.zeroedT < ch.writtenT
  }

  function ZeroOne(m: Mixing, i: nat, time: nat): Mixing
    requires i < |m.chans|
  {
    if m.chans[i].None? || !Stale(m.chans[i].value, time) then m
    else
      var ch := m.chans[i].value;
      Mixing(m.chans[i := Some(ch.(zeroedT := time))],
             if ch.port in m.out then m.out[ch.port := Silence(|m.out[ch.port]|)] else m.out)
  }

  function ZeroPass(m: Mixing, i: nat, time: nat): (r: Mixing)
    requires i <= |m.chans|
    ensures |r.chans| == |m.chans|
  {
    if i == 0 then m else ZeroOne(ZeroPass(m, i - 1, time), i - 1, time)
  }

  // ---- the callback ----

  /** The first player found dead while scanning. */
  function FirstDead(players: seq<PlayerState>): Option<nat> {
    FirstDeadFrom(players, 0)
  }

  function FirstDeadFrom(players: seq<PlayerState>, i: nat): (r: Option<nat>)
    requires i <= |players|
    ensures r.Some? ==> i <= r.value < |players| && !players[r.value].alive && forall j :: i <= j < r.value ==>
              players[j].alive
    ensures r.None? ==> forall j :: i <= j < |players| ==> players[j].alive
    decreases |players| - i
  {
    if i == |players| then None
    else if !players[i].alive then Some(i)
    else FirstDeadFrom(players, i + 1)
  }

  /** The same, as the scan finds it: one player at a time. */
  function FirstDeadBelow(players: seq<PlayerState>, i: nat): Option<nat>
    requires i <= |players|
  {
    if i == 0 then None
    else
      var before := FirstDeadBelow(players, i - 1);
      if before.None? && !players[i - 1].alive then Some(i - 1) else before
  }

  lemma {:induction false} FirstDeadIsBelow(players: seq<PlayerState>, i: nat)
    requires i <= |players|
    ensures
      match FirstDeadBelow(players, i)
      case None => FirstDead(players) == FirstDeadFrom(players, i)
      case Some(x) => FirstDead(players) == Some(x)
  {
    if i > 0 {
      FirstDeadIsBelow(players, i - 1);
    }
  }

  /** The player table once the first i players have taken their step. */
  function Stepped(players: seq<PlayerState>, i: nat, chans: Channels, out: Buffers, env: Env): (r: seq<PlayerState>)
    requires i <= |players|
    ensures |r| == |players|
  {
    if i == 0 then players
    else Stepped(players, i - 1, chans, out, env)[i - 1 := Play(players[i - 1], chans, out, env).player]
  }

  lemma {:induction false} SteppedAt(players: seq<PlayerState>, i: nat, chans: Channels, out: Buffers, env: Env, j: nat)
    requires j < |players| && i <= |players|
    ensures Stepped(players, i, chans, out, env)[j] ==
              if j < i then Play(players[j], chans, out, env).player else players[j]
  {
    if i > 0 {
      SteppedAt(players, i - 1, chans, out, env, j);
    }
  }

  function SentBy(players: seq<PlayerState>, i: nat, chans: Channels, out: Buffers, env: Env): seq<Message>
    requires i <= |players|
  {
    if i == 0 then [] else SentBy(players, i - 1, chans, out, env) + Play(players[i - 1], chans, out, env).sent
  }

  lemma ScanBegins(players: seq<PlayerState>, m: Mixing, env: Env)
    ensures Stepped(players, 0, m.chans, m.out, env) == players && ScanMix(players, 0, m, env) == m
    ensures SentBy(players, 0, m.chans, m.out, env) == [] && FirstDeadBelow(players, 0) == None
  {
  }

  lemma NextDead(players: seq<PlayerState>, i: nat)
    requires i < |players|
    ensures FirstDeadBelow(players, i + 1) ==
            if FirstDeadBelow(players, i).None? && !players[i].alive then Some(i) else FirstDeadBelow(players, i)
  {
  }

  datatype CallbackResult = CallbackResult(device: DeviceState, out: Buffers, sent: seq<Message>)

  /** The part of the callback after the command: scan, reap, zero. */
  function Process(d: DeviceState, out: Buffers, env: Env): CallbackResult {
    var chans := d.table.chans;
    var mixed := ScanMix(d.players, |d.players|, Mixing(chans, out), env);
    var players := Stepped(d.players, |d.players|, chans, out, env);
    var sent := SentBy(d.players, |d.players|, chans, out, env);
    var dead := FirstDead(d.players);
    var zeroed := ZeroPass(mixed, |mixed.chans|, env.time);
    var table := d.table.(chans := zeroed.chans);
    match dead
    case None => CallbackResult(DeviceState(players, table, d.length), zeroed.out, sent)
    case Some(x) =>
      CallbackResult(DeviceState(SwapRemove(players, x), table, d.length - 1), zeroed.out,
                     sent + [PlayerRemoved(players[x].uuid)])
  }

  /** At most one queued command is handled per callback. */
  function Callback(d: DeviceState, limits: Limits, cmd: Option<Command>, out: Buffers, env: Env): CallbackResult
    requires cmd.Some? && cmd.value.AddChannel? ==> HeadHoleExists(d.table)
  {
    match cmd
    case None => Process(d, out, env)
    case Some(c) =>
      var (d', sent) := Handle(d, limits, c);
      var r := Process(d', out, env);
      r.(sent := sent + r.sent)
  }

  // ---- the simple mixer: zero everything, then mix in player order ----

  predicate Feeds(p: PlayerState, c: nat, chans: Channels, out: Buffers, env: Env) {
    p.outputPatch == c && Play(p, chans, out, env).exit.Rendered?
  }

  predicate AnyFeeds(players: seq<PlayerState>, i: nat, c: nat, chans: Channels, out: Buffers, env: Env)
    requires i <= |players|
  {
    exists j :: 0 <= j < i && Feeds(players[j], c, chans, out, env)
  }

  function AddClamped(acc: seq<real>, played: seq<real>, vol: real, master: real): (r: seq<real>)
    ensures |r| == |acc|
  {
    seq(|acc|, k requires 0 <= k < |acc| =>
      if k < |played| then Clamp(acc[k] + Scaled(played[k], vol, master)) else acc[k])
  }

  /** y is x kept between full scale and its negative. */
  predicate Clipped(x: real, y: real) {
    && -1.0 <= y <= 1.0
    && (-1.0 <= x <= 1.0 ==> y == x)
    && (x > 1.0 ==> y == 1.0)
    && (x < -1.0 ==> y == -1.0)
  }

  /** A mixed frame is the clipped sum of what was there and the sample at the two levels. */
  lemma MixClips(buf: seq<real>, played: seq<real>, vol: real, master: real, written: bool, k: nat)
    requires k < |buf| && k < |played|
    ensures Clipped((if written then buf[k] else 0.0) + played[k] * vol * master,
                    MixBuffer(buf, played, vol, master, written)[k])
  {
  }

  /** Channel c after the first i players: silence, then each player that feeds c in player order. */
  function SimpleMix(players: seq<PlayerState>, i: nat, c: nat, chans: Channels, out: Buffers, env: Env): (r: seq<real>)
    requires i <= |players|
    ensures |r| == env.nframes
  {
    if i == 0 then Silence(env.nframes)
    else
      var p := players[i - 1];
      var acc := SimpleMix(players, i - 1, c, chans, out, env);
      if Feeds(p, c, chans, out, env) then
        AddClamped(acc, Play(p, chans, out, env).played, Get(p.volume, env.time), Get(p.master, env.time))
      else acc
  }

  /** What player p makes of the level `before` in frame k of channel c: its sample is added, at its volume
      and master level, if it renders to the channel, and the sum is clipped. */
  ghost predicate Adds(p: PlayerState, c: nat, chans: Channels, out: Buffers, env: Env, k: nat, before: real,
                       after: real)
  {
    var o := Step(p, env.time, env.rate, env.nframes, SlotOf(chans, out, p.outputPatch));
    if p.outputPatch == c && o.exit.Rendered? then
      k < |o.played| && Clipped(before + o.played[k] * Get(p.volume, env.time) * Get(p.master, env.time), after)
    else after == before
  }

  /** The levels of frame k of channel c as one player after the other is mixed into silence. */
  ghost predicate Accumulates(players: seq<PlayerState>, c: nat, chans: Channels, out: Buffers, env: Env, k: nat,
                              levels: seq<real>)
  {
    && |levels| == |players| + 1 && levels[0] == 0.0
    && forall j :: 0 <= j < |players| ==> Adds(players[j], c, chans, out, env, k, levels[j], levels[j + 1])
  }

  ghost predicate MixesTo(players: seq<PlayerState>, c: nat, chans: Channels, out: Buffers, env: Env, k: nat,
                          level: real)
  {
    exists levels :: Accumulates(players, c, chans, out, env, k, levels) && levels[|players|] == level
  }

  lemma ClampAdds(p: PlayerState, c: nat, chans: Channels, out: Buffers, env: Env, k: nat, before: real)
    requires Feeds(p, c, chans, out, env) && k < env.nframes
    ensures
      var o, vol, master := Play(p, chans, out, env), Get(p.volume, env.time), Get(p.master, env.time);
      k < |o.played| && Adds(p, c, chans, out, env, k, before, Clamp(before + Scaled(o.played[k], vol, master)))
  {
    RenderedMeansOpen(p, chans, out, env);
    hide Step, SlotOf, Get;
  }

  lemma MixStep(players: seq<PlayerState>, j: nat, c: nat, chans: Channels, out: Buffers, env: Env, k: nat)
    requires j < |players| && k < env.nframes
    ensures Adds(players[j], c, chans, out, env, k, SimpleMix(players, j, c, chans, out, env)[k],
                 SimpleMix(players, j + 1, c, chans, out, env)[k])
  {
    hide Clamp, Scaled, Step, SlotOf, Get;
    var p, acc := players[j], SimpleMix(players, j, c, chans, out, env);
    if Feeds(p, c, chans, out, env) {
      hide Adds;
      ClampAdds(p, c, chans, out, env, k, acc[k]);
    }
  }

  lemma SimpleMixLevels(players: seq<PlayerState>, c: nat, chans: Channels, out: Buffers, env: Env, k: nat)
    requires k < env.nframes
    ensures MixesTo(players, c, chans, out, env, k, SimpleMix(players, |players|, c, chans, out, env)[k])
  {
    hide Adds, AddClamped;
    var n := |players|;
    var levels := seq(n + 1, j requires 0 <= j <= n => SimpleMix(players, j, c, chans, out, env)[k]);
    forall j | 0 <= j < n ensures Adds(players[j], c, chans, out, env, k, levels[j], levels[j + 1]) {
      MixStep(players, j, c, chans, out, env, k);
    }
    assert Accumulates(players, c, chans, out, env, k, levels);
  }

  lemma SumClips(acc: real, sample: real, vol: real, master: real)
    ensures Clipped(acc + sample * vol * master, Clamp(acc + Scaled(sample, vol, master)))
  {
  }

  /** A channel fed by one player at fixed levels: the player's samples times both, clipped. */
  lemma AlonePlays(players: seq<PlayerState>, i: nat, j: nat, c: nat, chans: Channels, out: Buffers, env: Env, k: nat)
    requires j < i <= |players| && k < env.nframes
    requires players[j].outputPatch == c && players[j].volume.Raw? && players[j].master.Raw?
    requires Step(players[j], env.time, env.rate, env.nframes, SlotOf(chans, out, c)).exit.Rendered?
    requires forall l :: 0 <= l < i && l != j ==> players[l].outputPatch != c
    ensures
      var played := Step(players[j], env.time, env.rate, env.nframes, SlotOf(chans, out, c)).played;
      && k < |played|
      && Clipped(played[k] * players[j].volume.level * players[j].master.level,
                 SimpleMix(players, i, c, chans, out, env)[k])
    decreases i
  {
    hide Step, Clamp, Scaled;
    if i == j + 1 {
      RenderedMeansOpen(players[j], chans, out, env);
      OthersSilent(players, j, c, chans, out, env);
      var p, o := players[j], Play(players[j], chans, out, env);
      SumClips(0.0, o.played[k], p.volume.level, p.master.level);
    } else {
      AlonePlays(players, i - 1, j, c, chans, out, env, k);
    }
  }

  lemma {:induction false} OthersSilent(players: seq<PlayerState>, i: nat, c: nat, chans: Channels, out: Buffers,
                                        env: Env)
    requires i <= |players| && forall l :: 0 <= l < i ==> players[l].outputPatch != c
    ensures SimpleMix(players, i, c, chans, out, env) == Silence(env.nframes)
  {
    if i > 0 {
      OthersSilent(players, i - 1, c, chans, out, env);
    }
  }

  // ---- the timestamp mixer refines the simple one ----

  ghost predicate PortsDistinct(chans: Channels) {
    forall a, b :: 0 <= a < b < |chans| && chans[a].Some? && chans[b].Some? ==>
      chans[a].value.port != chans[b].value.port
  }

  /** Same slots, same ports: only timestamps may differ. */
  ghost predicate SamePorts(a: Channels, b: Channels) {
    && |a| == |b|
    && (forall c :: 0 <= c < |a| ==> a[c].Some? == b[c].Some? && (a[c].Some? ==> a[c].value.port == b[c].value.port))
  }

  ghost predicate BuffersSized(out: Buffers, n: nat) {
    forall port :: port in out ==> |out[port]| == n
  }

  /** A channel not written since it was last zeroed has a silent buffer. */
  ghost predicate Tidy(ch: DeviceChannel, bufs: Buffers, clock: nat, n: nat) {
    && ch.writtenT <= clock && ch.zeroedT <= clock
    && ch.port in bufs
    && |bufs[ch.port]| == n
    && (ch.zeroedT >= ch.writtenT ==> bufs[ch.port] == Silence(n))
  }

  lemma RenderedMeansOpen(p: PlayerState, chans: Channels, out: Buffers, env: Env)
    requires Play(p, chans, out, env).exit.Rendered?
    ensures SlotOf(chans, out, p.outputPatch).Open? && |Play(p, chans, out, env).played| == env.nframes
  {
  }

  lemma {:induction false} ScanKeepsPorts(players: seq<PlayerState>, i: nat, m: Mixing, env: Env)
    requires i <= |players| && BuffersSized(m.out, env.nframes)
    ensures var r := ScanMix(players, i, m, env);
            SamePorts(r.chans, m.chans) && r.out.Keys == m.out.Keys && BuffersSized(r.out, env.nframes)
  {
    if i > 0 {
      ScanKeepsPorts(players, i - 1, m, env);
    }
  }

  lemma PlayDependsOnPorts(p: PlayerState, a: Mixing, b: Mixing, env: Env)
    requires SamePorts(a.chans, b.chans) && a.out.Keys == b.out.Keys
    ensures Play(p, a.chans, a.out, env) == Play(p, b.chans, b.out, env)
  {
    assert SlotOf(a.chans, a.out, p.outputPatch) == SlotOf(b.chans, b.out, p.outputPatch);
  }

  lemma FirstWriteIsMix(n: nat, old_: seq<real>, played: seq<real>, vol: real, master: real)
    requires |old_| == |played| == n
    ensures MixBuffer(old_, played, vol, master, false) == AddClamped(Silence(n), played, vol, master)
    ensures MixBuffer(old_, played, vol, master, true) == AddClamped(old_, played, vol, master)
  {
  }

  lemma MixPlayerEffect(m: Mixing, p: PlayerState, env: Env, c: nat)
    requires c < |m.chans| && m.chans[c].Some? && PortsDistinct(m.chans)
    requires m.chans[c].value.port in m.out
    ensures
      var r, ch := MixPlayer(m, p, env), m.chans[c].value;
      && SamePorts(r.chans, m.chans) && r.out.Keys == m.out.Keys
      && (if Feeds(p, c, m.chans, m.out, env) then
            && r.chans[c] == Some(ch.(writtenT := env.time))
            && r.out[ch.port] == MixBuffer(m.out[ch.port], Play(p, m.chans, m.out, env).played,
                                           Get(p.volume, env.time), Get(p.master, env.time), ch.writtenT == env.time)
          else
            r.chans[c] == m.chans[c] && r.out[ch.port] == m.out[ch.port])
  {
    if Play(p, m.chans, m.out, env).exit.Rendered? {
      RenderedMeansOpen(p, m.chans, m.out, env);
    }
  }

  lemma AnyFeedsStep(players: seq<PlayerState>, i: nat, c: nat, chans: Channels, out: Buffers, env: Env)
    requires 0 < i <= |players|
    ensures AnyFeeds(players, i, c, chans, out, env)
            <==> AnyFeeds(players, i - 1, c, chans, out, env) || Feeds(players[i - 1], c, chans, out, env)
  {
  }

  /** After i players, a channel that any of them feeds is stamped with the callback's time and holds
      the simple mix; any other channel is as it was. */
  ghost predicate RefinedUpTo(players: seq<PlayerState>, i: nat, m: Mixing, env: Env, c: nat)
    requires i <= |players| && c < |m.chans| && m.chans[c].Some? && m.chans[c].value.port in m.out
  {
    var r, ch := ScanMix(players, i, m, env), m.chans[c].value;
    var mix := SimpleMix(players, i, c, m.chans, m.out, env);
    && SamePorts(r.chans, m.chans) && r.out.Keys == m.out.Keys
    && (if AnyFeeds(players, i, c, m.chans, m.out, env) then
          r.chans[c] == Some(ch.(writtenT := env.time)) && r.out[ch.port] == mix
        else
          r.chans[c] == m.chans[c] && r.out[ch.port] == m.out[ch.port] && mix == Silence(env.nframes))
  }

  lemma {:induction false} ScanRefines(players: seq<PlayerState>, i: nat, m: Mixing, env: Env, c: nat)
    requires i <= |players| && c < |m.chans| && m.chans[c].Some?
    requires PortsDistinct(m.chans) && BuffersSized(m.out, env.nframes)
    requires m.chans[c].value.port in m.out && m.chans[c].value.writtenT < env.time
    ensures RefinedUpTo(players, i, m, env, c)
  {
    if i > 0 {
      ScanRefines(players, i - 1, m, env, c);
      ScanRefinesStep(players, i, m, env, c);
    }
  }

  lemma ScanRefinesStep(players: seq<PlayerState>, i: nat, m: Mixing, env: Env, c: nat)
    requires 0 < i <= |players| && c < |m.chans| && m.chans[c].Some?
    requires PortsDistinct(m.chans) && BuffersSized(m.out, env.nframes)
    requires m.chans[c].value.port in m.out && m.chans[c].value.writtenT < env.time
    requires RefinedUpTo(players, i - 1, m, env, c)
    ensures RefinedUpTo(players, i, m, env, c)
  {
    var p := players[i - 1];
    var before := ScanMix(players, i - 1, m, env);
    MixPlayerEffect(before, p, env, c);
    PlayDependsOnPorts(p, before, m, env);
    AnyFeedsStep(players, i, c, m.chans, m.out, env);
    if Feeds(p, c, m.chans, m.out, env) {
      var o := Play(p, m.chans, m.out, env);
      RenderedMeansOpen(p, m.chans, m.out, env);
      FirstWriteIsMix(env.nframes, before.out[m.chans[c].value.port], o.played, Get(p.volume, env.time),
                      Get(p.master, env.time));
    }
  }

  /** The zeroing pass touches exactly the stale channels below i. */
  lemma {:induction false} ZeroPassEffect(m: Mixing, i: nat, time: nat, c: nat)
    requires i <= |m.chans| && PortsDistinct(m.chans)
    requires c < |m.chans| && m.chans[c].Some?
    ensures
      var r := ZeroPass(m, i, time);
      var ch := m.chans[c].value;
      && SamePorts(r.chans, m.chans) && r.out.Keys == m.out.Keys
      && (if c < i && Stale(ch, time) then
            && r.chans[c] == Some(ch.(zeroedT := time))
            && (ch.port in m.out ==> r.out[ch.port] == Silence(|m.out[ch.port]|))
          else
            && r.chans[c] == m.chans[c]
            && (ch.port in m.out ==> r.out[ch.port] == m.out[ch.port]))
  {
    if i > 0 {
      ZeroPassEffect(m, i - 1, time, c);
      if m.chans[i - 1].Some? && c != i - 1 {
        ZeroPassEffect(m, i - 1, time, i - 1);
      }
    }
  }

  /** The main result for one callback: a tidy channel whose port is available ends up holding
      exactly the simple mix, all silence when nobody fed it, and is tidy again. */
  lemma ProcessMixesAfresh(d: DeviceState, out: Buffers, env: Env, clock: nat, c: nat)
    requires clock < env.time
    requires c < |d.table.chans| && d.table.chans[c].Some?
    requires PortsDistinct(d.table.chans) && BuffersSized(out, env.nframes)
    requires Tidy(d.table.chans[c].value, out, clock, env.nframes)
    ensures
      var r := Process(d, out, env);
      var chans, port := d.table.chans, d.table.chans[c].value.port;
      && port in r.out
      && r.out[port] == SimpleMix(d.players, |d.players|, c, chans, out, env)
      && (forall k :: 0 <= k < env.nframes ==> MixesTo(d.players, c, chans, out, env, k, r.out[port][k]))
      && (!AnyFeeds(d.players, |d.players|, c, chans, out, env) ==> r.out[port] == Silence(env.nframes))
      && c < |r.device.table.chans| && r.device.table.chans[c].Some?
      && Tidy(r.device.table.chans[c].value, r.out, env.time, env.nframes)
  {
    var n := |d.players|;
    var m := Mixing(d.table.chans, out);
    var mixed := ScanMix(d.players, n, m, env);
    ScanRefines(d.players, n, m, env, c);
    ZeroPassEffect(mixed, |mixed.chans|, env.time, c);
    forall k | 0 <= k < env.nframes
      ensures MixesTo(d.players, c, d.table.chans, out, env, k, SimpleMix(d.players, n, c, d.table.chans, out, env)[k])
    {
      SimpleMixLevels(d.players, c, d.table.chans, out, env, k);
    }
    hide MixesTo, ScanMix, SimpleMix;
  }

  /** A callback never changes which port a slot holds. */
  lemma {:induction false} ZeroKeepsPorts(m: Mixing, i: nat, time: nat)
    requires i <= |m.chans|
    ensures SamePorts(ZeroPass(m, i, time).chans, m.chans)
    ensures ZeroPass(m, i, time).out.Keys == m.out.Keys
    ensures forall port :: port in m.out ==> |ZeroPass(m, i, time).out[port]| == |m.out[port]|
  {
    if i > 0 {
      ZeroKeepsPorts(m, i - 1, time);
    }
  }

  lemma ProcessKeepsPorts(d: DeviceState, out: Buffers, env: Env)
    requires BuffersSized(out, env.nframes)
    ensures
      var r := Process(d, out, env);
      && SamePorts(r.device.table.chans, d.table.chans) && r.device.table.holes == d.table.holes
      && r.out.Keys == out.Keys && BuffersSized(r.out, env.nframes)
  {
    var m := Mixing(d.table.chans, out);
    ScanKeepsPorts(d.players, |d.players|, m, env);
    var mixed := ScanMix(d.players, |d.players|, m, env);
    ZeroKeepsPorts(mixed, |mixed.chans|, env.time);
  }

  ghost predicate UsesPort(chans: Channels, port: nat) {
    exists c :: 0 <= c < |chans| && chans[c].Some? && chans[c].value.port == port
  }

  lemma SamePortsUse(a: Channels, b: Channels, port: nat)
    requires SamePorts(a, b)
    ensures UsesPort(a, port) <==> UsesPort(b, port)
  {
  }

  lemma {:induction false} ScanLeavesOthers(players: seq<PlayerState>, i: nat, m: Mixing, env: Env, port: nat)
    requires i <= |players| && BuffersSized(m.out, env.nframes)
    requires port in m.out && !UsesPort(m.chans, port)
    ensures port in ScanMix(players, i, m, env).out && ScanMix(players, i, m, env).out[port] == m.out[port]
  {
    if i > 0 {
      ScanLeavesOthers(players, i - 1, m, env, port);
      ScanKeepsPorts(players, i - 1, m, env);
      var before := ScanMix(players, i - 1, m, env);
      SamePortsUse(before.chans, m.chans, port);
      if Play(players[i - 1], before.chans, before.out, env).exit.Rendered? {
        RenderedMeansOpen(players[i - 1], before.chans, before.out, env);
        assert before.chans[players[i - 1].outputPatch].value.port != port;
      }
    }
  }

  lemma {:induction false} ZeroLeavesOthers(m: Mixing, i: nat, time: nat, port: nat)
    requires i <= |m.chans| && port in m.out && !UsesPort(m.chans, port)
    ensures port in ZeroPass(m, i, time).out && ZeroPass(m, i, time).out[port] == m.out[port]
  {
    if i > 0 {
      ZeroLeavesOthers(m, i - 1, time, port);
      ZeroKeepsPorts(m, i - 1, time);
      SamePortsUse(ZeroPass(m, i - 1, time).chans, m.chans, port);
    }
  }

  /** A callback writes to no port that is not in the device's table. */
  lemma ProcessLeavesOthers(d: DeviceState, out: Buffers, env: Env, port: nat)
    requires BuffersSized(out, env.nframes) && port in out && !UsesPort(d.table.chans, port)
    ensures port in Process(d, out, env).out && Process(d, out, env).out[port] == out[port]
  {
    var m := Mixing(d.table.chans, out);
    var mixed := ScanMix(d.players, |d.players|, m, env);
    ScanLeavesOthers(d.players, |d.players|, m, env, port);
    ScanKeepsPorts(d.players, |d.players|, m, env);
    SamePortsUse(mixed.chans, m.chans, port);
    ZeroLeavesOthers(mixed, |mixed.chans|, env.time, port);
  }

  // ---- the player table ----

  ghost predicate Accounted(d: DeviceState, limits: Limits) {
    d.length == |d.players| <= limits.maxPlayers
  }

  /** The shared length is the table's size after every callback; `AddPlayer` is accepted exactly
      when there is room, and answered either way. */
  lemma CallbackAccounts(d: DeviceState, limits: Limits, cmd: Option<Command>, out: Buffers, env: Env)
    requires Accounted(d, limits)
    requires cmd.Some? && cmd.value.AddChannel? ==> HeadHoleExists(d.table)
    ensures
      var r := Callback(d, limits, cmd, out, env);
      && Accounted(r.device, limits)
      && (cmd.Some? && cmd.value.AddPlayer? ==>
            r.sent != [] && r.sent[0] == (if |d.players| < limits.maxPlayers then PlayerAdded(cmd.value.player.uuid)
                                          else PlayerRejected(cmd.value.player.uuid)))
  {
    match cmd
    case None => ProcessReaps(d, out, env);
    case Some(c) => ProcessReaps(Handle(d, limits, c).0, out, env);
  }

  /** A callback that finds dead players removes the first of them and no other; otherwise the
      table keeps every player in place. */
  lemma ProcessReaps(d: DeviceState, out: Buffers, env: Env)
    ensures
      var r, chans, n := Process(d, out, env).device, d.table.chans, |d.players|;
      var stepped := Stepped(d.players, n, chans, out, env);
      && r.length - |r.players| == d.length - n && |r.players| <= n
      && (match FirstDead(d.players)
          case None => r.players == stepped && forall p :: p in d.players ==> p.alive
          case Some(x) =>
            && !d.players[x].alive
            && multiset(r.players) == multiset(stepped) - multiset{Play(d.players[x], chans, out, env).player})
  {
    var stepped := Stepped(d.players, |d.players|, d.table.chans, out, env);
    var dead := FirstDead(d.players);
    if dead.Some? {
      SwapRemoveTakesOne(stepped, dead.value);
      SteppedAt(d.players, |d.players|, d.table.chans, out, env, dead.value);
    }
  }

  /** The messages of a scan are each player's own, in the order of the table. */
  lemma {:induction false} SentInTurn(players: seq<PlayerState>, i: nat, j: nat, chans: Channels, out: Buffers,
                                      env: Env)
    requires j < i <= |players|
    ensures
      var all, before, mine := SentBy(players, i, chans, out, env), SentBy(players, j, chans, out, env),
                               Play(players[j], chans, out, env).sent;
      && |before| + |mine| <= |all|
      && all[..|before|] == before && all[|before|..|before| + |mine|] == mine
      && (j == 0 ==> before == []) && (j == i - 1 ==> |before| + |mine| == |all|)
    decreases i
  {
    hide Play;
    if j < i - 1 {
      SentInTurn(players, i - 1, j, chans, out, env);
    }
  }

  /** What a callback sends apart from the answer to a command: the players' messages, then the removal of
      the first dead player. */
  lemma ProcessSends(d: DeviceState, out: Buffers, env: Env)
    ensures
      var said := SentBy(d.players, |d.players|, d.table.chans, out, env);
      var sent := Process(d, out, env).sent;
      && (sent == said <==> forall p :: p in d.players ==> p.alive)
      && forall x :: 0 <= x < |d.players| && !d.players[x].alive
                     && (forall y :: 0 <= y < x ==> d.players[y].alive) ==>
           sent == said + [PlayerRemoved(d.players[x].uuid)]
  {
    var n, dead := |d.players|, FirstDead(d.players);
    if dead.Some? {
      SteppedAt(d.players, n, d.table.chans, out, env, dead.value);
      StepKeepsIdentity(d.players[dead.value], d.table.chans, out, env);
      assert d.players[dead.value] in d.players;
    }
    hide Play, SentBy, ScanMix, Stepped, ZeroPass;
  }

  lemma SwapRemoveTakesOne<T>(s: seq<T>, i: nat)
    requires i < |s|
    ensures |SwapRemove(s, i)| == |s| - 1
    ensures multiset(SwapRemove(s, i)) == multiset(s) - multiset{s[i]}
  {
    var last := |s| - 1;
    assert s == s[..last] + [s[last]];
    if i < last {
      assert SwapRemove(s, i) == s[..i] + [s[last]] + s[i + 1..last];
      assert s[..last] == s[..i] + [s[i]] + s[i + 1..last];
    } else {
      assert SwapRemove(s, i) == s[..last];
    }
  }

  function DeadCount(players: seq<PlayerState>): nat {
    if players == [] then 0
    else DeadCount(players[..|players| - 1]) + (if players[|players| - 1].alive then 0 else 1)
  }

  function LiveUuids(players: seq<PlayerState>): multiset<nat> {
    if players == [] then multiset{}
    else LiveUuids(players[..|players| - 1])
         + (if players[|players| - 1].alive then multiset{players[|players| - 1].uuid} else multiset{})
  }

  lemma {:induction false} CountsConcat(a: seq<PlayerState>, b: seq<PlayerState>)
    ensures DeadCount(a + b) == DeadCount(a) + DeadCount(b)
    ensures LiveUuids(a + b) == LiveUuids(a) + LiveUuids(b)
  {
    if b == [] {
      assert a + b == a;
    } else {
      var b' := b[..|b| - 1];
      assert (a + b)[..|a + b| - 1] == a + b';
      CountsConcat(a, b');
    }
  }

  lemma StepKeepsIdentity(p: PlayerState, chans: Channels, out: Buffers, env: Env)
    ensures Play(p, chans, out, env).player.uuid == p.uuid
    ensures !p.alive ==> !Play(p, chans, out, env).player.alive
  {
  }

  lemma UpdateKeepsCounts(s: seq<PlayerState>, k: nat, p: PlayerState)
    requires k < |s| && s[k].alive == p.alive && s[k].uuid == p.uuid
    ensures DeadCount(s[k := p]) == DeadCount(s) && LiveUuids(s[k := p]) == LiveUuids(s)
  {
    assert s == s[..k] + ([s[k]] + s[k + 1..]);
    assert s[k := p] == s[..k] + ([p] + s[k + 1..]);
    CountsConcat(s[..k], [s[k]] + s[k + 1..]);
    CountsConcat(s[..k], [p] + s[k + 1..]);
    CountsConcat([s[k]], s[k + 1..]);
    CountsConcat([p], s[k + 1..]);
    assert DeadCount([p]) == DeadCount([s[k]]) && LiveUuids([p]) == LiveUuids([s[k]]) by {
      assert [p][..0] == [s[k]][..0] == [];
    }
  }

  lemma {:induction false} StepKeepsCounts(players: seq<PlayerState>, i: nat, chans: Channels, out: Buffers, env: Env)
    requires i <= |players|
    requires forall p :: p in players && p.alive ==> Play(p, chans, out, env).player.alive
    ensures DeadCount(Stepped(players, i, chans, out, env)) == DeadCount(players)
    ensures LiveUuids(Stepped(players, i, chans, out, env)) == LiveUuids(players)
  {
    hide Play, DeadCount, LiveUuids;
    if i > 0 {
      StepKeepsCounts(players, i - 1, chans, out, env);
      var p := players[i - 1];
      assert p in players;
      StepKeepsIdentity(p, chans, out, env);
      SteppedAt(players, i - 1, chans, out, env, i - 1);
      UpdateKeepsCounts(Stepped(players, i - 1, chans, out, env), i - 1, Play(p, chans, out, env).player);
    }
  }

  lemma RemovingDeadCounts(s: seq<PlayerState>, x: nat)
    requires x < |s| && !s[x].alive
    ensures DeadCount(SwapRemove(s, x)) == DeadCount(s) - 1
    ensures LiveUuids(SwapRemove(s, x)) == LiveUuids(s)
  {
    var last := |s| - 1;
    if x < last {
      var left, p, mid, q := s[..x], s[x], s[x + 1..last], s[last];
      CountsOfParts(left, p, mid, q);
      assert SwapRemove(s, x) == left + ([q] + mid) && s == left + ([p] + (mid + [q])) by {
        SwapRemoveSplit(s, x);
      }
    } else {
      assert SwapRemove(s, x) == s[..last];
    }
  }

  lemma SwapRemoveSplit<T>(s: seq<T>, x: nat)
    requires x < |s| - 1
    ensures var last := |s| - 1;
            && SwapRemove(s, x) == s[..x] + ([s[last]] + s[x + 1..last])
            && s == s[..x] + ([s[x]] + (s[x + 1..last] + [s[last]]))
  {
  }

  lemma CountsOfParts(left: seq<PlayerState>, p: PlayerState, mid: seq<PlayerState>, q: PlayerState)
    requires !p.alive
    ensures DeadCount(left + ([q] + mid)) == DeadCount(left + ([p] + (mid + [q]))) - 1
    ensures LiveUuids(left + ([q] + mid)) == LiveUuids(left + ([p] + (mid + [q])))
  {
    CountsConcat(left, [q] + mid);
    CountsConcat([q], mid);
    CountsConcat(left, [p] + (mid + [q]));
    CountsConcat([p], mid + [q]);
    CountsConcat(mid, [q]);
    assert DeadCount([p]) == 1 && LiveUuids([p]) == multiset{} by { assert [p][..0] == []; }
  }

  lemma {:induction false} NoneDead(players: seq<PlayerState>)
    ensures DeadCount(players) == 0 <==> forall p :: p in players ==> p.alive
  {
    if players != [] {
      var n := |players| - 1;
      NoneDead(players[..n]);
      assert players == players[..n] + [players[n]];
    }
  }

  /** An accepted player joins at the end of the table, alive and otherwise as it was handed over. */
  lemma AddPlayerAdmits(d: DeviceState, limits: Limits, p: PlayerState)
    ensures
      var (after, sent) := Handle(d, limits, AddPlayer(p));
      if |d.players| < limits.maxPlayers then
        && sent == [PlayerAdded(p.uuid)] && |after.players| == |d.players| + 1
        && (forall i :: 0 <= i < |d.players| ==> after.players[i] == d.players[i])
        && after.players[|d.players|].alive && after.players[|d.players|] == p.(alive := true)
        && LiveUuids(after.players) == LiveUuids(d.players) + multiset{p.uuid}
        && DeadCount(after.players) == DeadCount(d.players)
        && after.length == d.length + 1 && after.table == d.table
      else after == d && sent == [PlayerRejected(p.uuid)]
  {
    if |d.players| < limits.maxPlayers {
      var q := p.(alive := true);
      CountsConcat(d.players, [q]);
      assert [q][..0] == [];
    }
  }

  lemma {:induction false} NoRemovals(players: seq<PlayerState>, i: nat, chans: Channels, out: Buffers, env: Env)
    requires i <= |players|
    ensures forall u :: PlayerRemoved(u) !in SentBy(players, i, chans, out, env)
  {
    if i > 0 {
      NoRemovals(players, i - 1, chans, out, env);
      StepSendsNoRemoval(players[i - 1], chans, out, env);
      hide Play;
    }
  }

  lemma StepSendsNoRemoval(p: PlayerState, chans: Channels, out: Buffers, env: Env)
    ensures forall u :: PlayerRemoved(u) !in Play(p, chans, out, env).sent
  {
  }

  /** A new player is not reaped by the callback that accepts it: from a table without dead players
      nobody leaves, and the player stays in the table. */
  lemma NewPlayerStays(d: DeviceState, limits: Limits, p: PlayerState, out: Buffers, env: Env)
    requires |d.players| < limits.maxPlayers && forall q :: q in d.players ==> q.alive
    ensures
      var r := Callback(d, limits, Some(AddPlayer(p)), out, env);
      && (forall u :: PlayerRemoved(u) !in r.sent)
      && |r.device.players| == |d.players| + 1 && r.device.players[|d.players|].uuid == p.uuid
  {
    var (after, sent) := Handle(d, limits, AddPlayer(p));
    var n := |after.players|;
    AddPlayerAdmits(d, limits, p);
    assert forall q :: q in after.players ==> q.alive;
    NoRemovals(after.players, n, after.table.chans, out, env);
    SteppedAt(after.players, n, after.table.chans, out, env, n - 1);
    StepKeepsIdentity(after.players[n - 1], after.table.chans, out, env);
    hide Handle, Play, SentBy, Stepped, ScanMix, ZeroPass;
  }

  /** With no new deaths a callback reaps one of the dead and loses none of the living. */
  lemma ReapOne(d: DeviceState, out: Buffers, env: Env)
    requires forall p :: p in d.players && p.alive ==> Play(p, d.table.chans, out, env).player.alive
    ensures
      var r := Process(d, out, env).device;
      && DeadCount(r.players) == (if DeadCount(d.players) == 0 then 0 else DeadCount(d.players) - 1)
      && LiveUuids(r.players) == LiveUuids(d.players)
  {
    var n := |d.players|;
    var s := Stepped(d.players, n, d.table.chans, out, env);
    StepKeepsCounts(d.players, n, d.table.chans, out, env);
    NoneDead(d.players);
    var dead := FirstDead(d.players);
    if dead.Some? {
      var x := dead.value;
      assert d.players[x] in d.players;
      StepKeepsIdentity(d.players[x], d.table.chans, out, env);
      SteppedAt(d.players, n, d.table.chans, out, env, x);
      RemovingDeadCounts(s, x);
    }
  }

  /** A run of callbacks without commands in which nobody dies. */
  ghost predicate QuietRun(d: DeviceState, steps: seq<(Buffers, Env)>)
    decreases |steps|
  {
    steps != [] ==>
      && (forall p :: p in d.players && p.alive ==> Play(p, d.table.chans, steps[0].0, steps[0].1).player.alive)
      && QuietRun(Process(d, steps[0].0, steps[0].1).device, steps[1..])
  }

  function AfterRun(d: DeviceState, steps: seq<(Buffers, Env)>): DeviceState
    decreases |steps|
  {
    if steps == [] then d else AfterRun(Process(d, steps[0].0, steps[0].1).device, steps[1..])
  }

  /** As many callbacks as there are dead players clear them all, and keep every live one. */
  lemma {:induction false} DeadAreReaped(d: DeviceState, steps: seq<(Buffers, Env)>)
    requires QuietRun(d, steps) && |steps| >= DeadCount(d.players)
    ensures LiveUuids(AfterRun(d, steps).players) == LiveUuids(d.players)
    ensures forall p :: p in AfterRun(d, steps).players ==> p.alive
    decreases |steps|
  {
    NoneDead(d.players);
    if steps != [] {
      ReapOne(d, steps[0].0, steps[0].1);
      DeadAreReaped(Process(d, steps[0].0, steps[0].1).device, steps[1..]);
    }
  }
}
