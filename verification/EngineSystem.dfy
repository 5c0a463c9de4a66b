/** Both threads of the engine as one transition system. The main thread changes its table first and
    hands the command over later (it may have to wait for room in the queue); the audio thread takes
    at most one command per callback. */
module EngineSystem {
  import opened Containers
  import opened ChannelTable
  import opened Player
  import opened Device

  datatype Config = Config(limits: Limits, rate: nat, nframes: nat, queueSize: nat)

  datatype System = System(
    main: Table<nat>, pending: Option<Command>, queue: seq<Command>,
    dev: DeviceState, bufs: Buffers, clock: nat, nextPort: nat)

  datatype Action =
    | MainAdd
    | MainRemove(slot: nat)
    | MainAddPlayer(player: PlayerState)
    | Enqueue
    | SendersWrite(players: seq<PlayerState>)
    | RunCallback(time: nat, available: set<nat>)

  function Outstanding(s: System): seq<Command> {
    s.queue + (match s.pending case None => [] case Some(c) => [c])
  }

  ghost predicate InMain(s: System, port: nat) {
    exists c :: 0 <= c < |s.main.chans| && s.main.chans[c] == Some(port)
  }

  /** Ports are fresh; every port the main thread still holds is available, others may have gone. */
  ghost predicate Enabled(cfg: Config, s: System, a: Action) {
    match a
    case MainAdd => s.pending.None?
    case MainRemove(_) => s.pending.None?
    case MainAddPlayer(_) => s.pending.None?
    case Enqueue => s.pending.Some? && |s.queue| < cfg.queueSize
    case SendersWrite(players) => |players| == |s.dev.players|
    case RunCallback(time, available) =>
      && s.clock < time
      && (forall port: nat :: InMain(s, port) ==> port in available)
      && (forall port :: port in available ==> port in s.bufs)
  }

  function Available(bufs: Buffers, available: set<nat>): Buffers {
    map port | port in bufs && port in available :: bufs[port]
  }

  function Head(queue: seq<Command>): Option<Command> {
    if queue == [] then None else Some(queue[0])
  }

  /** Neither thread would index outside its table by reusing a hole. */
  predicate NoPanic(s: System) {
    HeadHoleExists(s.main) && HeadHoleExists(s.dev.table)
  }

  /** One step; a system that would panic stops. */
  ghost function Next(cfg: Config, s: System, a: Action): System
    requires Enabled(cfg, s, a)
  {
    if !NoPanic(s) then s else
    match a
    case MainAdd =>
      var s1 := s.(nextPort := s.nextPort + 1, bufs := s.bufs[s.nextPort := Silence(cfg.nframes)]);
      if Full(s.main, cfg.limits.maxChans) then s1
      else s1.(main := Add(s.main, cfg.limits.maxChans, s.nextPort), pending := Some(AddChannel(s.nextPort)))
    case MainRemove(slot) =>
      if Lookup(s.main, slot).None? then s
      else s.(main := Remove(s.main, cfg.limits.maxChans, slot), pending := Some(RemoveChannel(slot)))
    case MainAddPlayer(p) => s.(pending := Some(AddPlayer(p)))
    case Enqueue => s.(queue := s.queue + [s.pending.value], pending := None)
    case SendersWrite(players) => s.(dev := s.dev.(players := players))
    case RunCallback(time, available) =>
      var r := Callback(s.dev, cfg.limits, Head(s.queue), Available(s.bufs, available),
                        Env(time, cfg.rate, cfg.nframes));
      s.(dev := r.device, bufs := s.bufs + r.out, clock := time,
         queue := if s.queue == [] then [] else s.queue[1..])
  }

  // ---- the mirror ----

  function Ports(t: Table<DeviceChannel>): Table<nat> {
    Table(seq(|t.chans|, i requires 0 <= i < |t.chans| =>
            match t.chans[i] case None => None case Some(ch) => Some(ch.port)), t.holes)
  }

  ghost predicate CanHandle(t: Table<nat>, max: nat, cmd: Command) {
    match cmd
    case AddPlayer(_) => true
    case AddChannel(_) => HeadHoleExists(t) && !Full(t, max)
    case RemoveChannel(slot) => Lookup(t, slot).Some?
  }

  function HandlePorts(t: Table<nat>, max: nat, cmd: Command): Table<nat>
    requires cmd.AddChannel? ==> HeadHoleExists(t)
  {
    match cmd
    case AddPlayer(_) => t
    case AddChannel(port) => Add(t, max, port)
    case RemoveChannel(slot) => Remove(t, max, slot)
  }

  /** Replaying the commands in order is possible and ends in `t'`. */
  ghost predicate Replays(t: Table<nat>, max: nat, cmds: seq<Command>, t': Table<nat>)
    decreases |cmds|
  {
    if cmds == [] then t' == t
    else CanHandle(t, max, cmds[0]) && Replays(HandlePorts(t, max, cmds[0]), max, cmds[1..], t')
  }

  lemma {:induction false} ReplaySnoc(t: Table<nat>, max: nat, cmds: seq<Command>, t': Table<nat>, cmd: Command)
    requires Replays(t, max, cmds, t') && CanHandle(t', max, cmd)
    ensures Replays(t, max, cmds + [cmd], HandlePorts(t', max, cmd))
    decreases |cmds|
  {
    if cmds == [] {
      assert (cmds + [cmd])[1..] == [];
    } else {
      assert (cmds + [cmd])[1..] == cmds[1..] + [cmd];
      ReplaySnoc(HandlePorts(t, max, cmds[0]), max, cmds[1..], t', cmd);
    }
  }

  lemma HandleKeepsValid(t: Table<nat>, max: nat, cmd: Command)
    requires Valid(t, max) && CanHandle(t, max, cmd)
    ensures Valid(HandlePorts(t, max, cmd), max)
  {
    match cmd
    case AddPlayer(_) =>
    case AddChannel(port) => AddKeepsTable(t, max, port);
    case RemoveChannel(slot) => RemoveKeepsTable(t, max, slot);
  }

  lemma PortsOfAdd(t: Table<DeviceChannel>, max: nat, port: nat)
    requires HeadHoleExists(t)
    ensures Ports(Add(t, max, NewChannel(port))) == Add(Ports(t), max, port)
  {
  }

  lemma PortsOfRemove(t: Table<DeviceChannel>, max: nat, slot: nat)
    ensures Ports(Remove(t, max, slot)) == Remove(Ports(t), max, slot)
  {
    var t1 := Table(Push(t.chans, max, None), t.holes);
    assert Ports(t1).chans == Push(Ports(t).chans, max, None);
    assert Ports(Table(SwapRemove(t1.chans, slot), t.holes)).chans == SwapRemove(Ports(t1).chans, slot);
  }

  /** The audio thread's own code does to the ports what replaying does. */
  lemma DeviceHandleMirrors(d: DeviceState, limits: Limits, cmd: Command)
    requires cmd.AddChannel? ==> HeadHoleExists(d.table)
    ensures HeadHoleExists(Ports(d.table)) <==> HeadHoleExists(d.table)
    ensures Ports(Handle(d, limits, cmd).0.table) == HandlePorts(Ports(d.table), limits.maxChans, cmd)
  {
    match cmd
    case AddPlayer(_) =>
    case AddChannel(port) => PortsOfAdd(d.table, limits.maxChans, port);
    case RemoveChannel(slot) => PortsOfRemove(d.table, limits.maxChans, slot);
  }

  lemma SamePortsTable(a: Table<DeviceChannel>, b: Table<DeviceChannel>)
    requires SamePorts(a.chans, b.chans) && a.holes == b.holes
    ensures Ports(a) == Ports(b)
  {
  }

  lemma ValidPorts(t: Table<DeviceChannel>, max: nat)
    ensures Valid(Ports(t), max) <==> Valid(t, max)
  {
    assert forall i :: 0 <= i < |t.chans| ==> Ports(t).chans[i].None? == t.chans[i].None?;
  }

  // ---- the invariant ----

  ghost predicate Mirrored(cfg: Config, s: System) {
    && Valid(s.main, cfg.limits.maxChans)
    && Valid(Ports(s.dev.table), cfg.limits.maxChans)
    && Replays(Ports(s.dev.table), cfg.limits.maxChans, Outstanding(s), s.main)
  }

  ghost predicate PortsFresh(s: System) {
    var cmds := Outstanding(s);
    && PortsDistinct(s.dev.table.chans)
    && (forall port: nat :: UsesPort(s.dev.table.chans, port) ==> port < s.nextPort)
    && (forall k :: 0 <= k < |cmds| && cmds[k].AddChannel? ==>
          cmds[k].port < s.nextPort && !UsesPort(s.dev.table.chans, cmds[k].port))
    && (forall j, k :: 0 <= j < k < |cmds| && cmds[j].AddChannel? && cmds[k].AddChannel? ==>
        cmds[j].port != cmds[k].port)
    && (forall port: nat :: InMain(s, port) ==> port < s.nextPort && port in s.bufs)
  }

  ghost predicate BuffersTidy(cfg: Config, s: System) {
    var chans, cmds := s.dev.table.chans, Outstanding(s);
    && BuffersSized(s.bufs, cfg.nframes)
    && (forall c :: 0 <= c < |chans| && chans[c].Some? && InMain(s, chans[c].value.port) ==>
          Tidy(chans[c].value, s.bufs, s.clock, cfg.nframes))
    && (forall k :: 0 <= k < |cmds| && cmds[k].AddChannel? && InMain(s, cmds[k].port) ==>
          cmds[k].port in s.bufs && s.bufs[cmds[k].port] == Silence(cfg.nframes))
  }

  ghost predicate Inv(cfg: Config, s: System) {
    && cfg.limits.maxChans >= 1
    && NoPanic(s)
    && Mirrored(cfg, s)
    && PortsFresh(s)
    && BuffersTidy(cfg, s)
    && Accounted(s.dev, cfg.limits)
  }

  lemma NeverPanics(cfg: Config, s: System)
    requires Mirrored(cfg, s)
    ensures NoPanic(s)
  {
    ValidHeadHole(s.main, cfg.limits.maxChans);
    ValidHeadHole(Ports(s.dev.table), cfg.limits.maxChans);
  }

  function Initial(): System {
    System(Table([], []), None, [], DeviceState([], Table([], []), 0), map[], 0, 0)
  }

  lemma InitialMirrored(cfg: Config)
    requires cfg.limits.maxChans >= 1
    ensures Mirrored(cfg, Initial()) && PortsFresh(Initial())
  {
    var s := Initial();
    assert Ports(s.dev.table) == s.main && Outstanding(s) == [];
    assert Replays(s.main, cfg.limits.maxChans, [], s.main);
    assert PortsDistinct(s.dev.table.chans);
    hide Replays, PortsDistinct, Ports;
  }

  lemma InitialInv(cfg: Config)
    requires cfg.limits.maxChans >= 1
    ensures Inv(cfg, Initial())
  {
    InitialMirrored(cfg);
    assert BuffersTidy(cfg, Initial());
    hide Mirrored, PortsFresh, BuffersTidy;
  }

  // ---- every step keeps the mirror ----

  lemma MainStepMirrors(cfg: Config, s: System, a: Action)
    requires Inv(cfg, s) && Enabled(cfg, s, a) && !a.RunCallback?
    ensures Mirrored(cfg, Next(cfg, s, a))
  {
    var max, t := cfg.limits.maxChans, Ports(s.dev.table);
    var s' := Next(cfg, s, a);
    if s.pending.None? && s'.pending.Some? {
      var cmd := s'.pending.value;
      assert Outstanding(s) == s.queue && Outstanding(s') == s.queue + [cmd];
      HandleKeepsValid(s.main, max, cmd);
      ReplaySnoc(t, max, s.queue, s.main, cmd);
    } else {
      assert Outstanding(s') == Outstanding(s);
    }
  }

  function Scanned(cfg: Config, s: System): DeviceState
    requires HeadHoleExists(s.dev.table)
  {
    match Head(s.queue) case None => s.dev case Some(c) => Handle(s.dev, cfg.limits, c).0
  }

  lemma OutstandingAfterCallback(cfg: Config, s: System, a: Action)
    requires Inv(cfg, s) && Enabled(cfg, s, a) && a.RunCallback?
    ensures Outstanding(Next(cfg, s, a)) == if s.queue == [] then Outstanding(s) else Outstanding(s)[1..]
    ensures s.queue != [] ==> Outstanding(s) != [] && Outstanding(s)[0] == s.queue[0]
  {
  }

  lemma SizedAvailable(cfg: Config, s: System, available: set<nat>)
    requires BuffersSized(s.bufs, cfg.nframes)
    ensures BuffersSized(Available(s.bufs, available), cfg.nframes)
  {
  }

  lemma CallbackIsProcess(cfg: Config, s: System, a: Action)
    requires Inv(cfg, s) && Enabled(cfg, s, a) && a.RunCallback?
    ensures HeadHoleExists(s.dev.table)
    ensures
      var r := Process(Scanned(cfg, s), Available(s.bufs, a.available), Env(a.time, cfg.rate, cfg.nframes));
      Next(cfg, s, a).dev == r.device && Next(cfg, s, a).bufs == s.bufs + r.out
  {
  }

  lemma CallbackMirrors(cfg: Config, s: System, a: Action)
    requires Inv(cfg, s) && Enabled(cfg, s, a) && a.RunCallback?
    ensures Mirrored(cfg, Next(cfg, s, a))
  {
    var max, t, s' := cfg.limits.maxChans, Ports(s.dev.table), Next(cfg, s, a);
    var env := Env(a.time, cfg.rate, cfg.nframes);
    CallbackIsProcess(cfg, s, a);
    OutstandingAfterCallback(cfg, s, a);
    SizedAvailable(cfg, s, a.available);
    var d := Scanned(cfg, s);
    ProcessKeepsPorts(d, Available(s.bufs, a.available), env);
    SamePortsTable(s'.dev.table, d.table);
    if s.queue != [] {
      DeviceHandleMirrors(s.dev, cfg.limits, s.queue[0]);
      HandleKeepsValid(t, max, s.queue[0]);
    }
  }

  // ---- every step keeps ports distinct and buffers tidy ----

  lemma MainStepFresh(cfg: Config, s: System, a: Action)
    requires Inv(cfg, s) && Enabled(cfg, s, a) && !a.RunCallback?
    ensures PortsFresh(Next(cfg, s, a))
  {
    hide Mirrored, BuffersTidy, Accounted, Callback, Add, Remove, NoPanic;
    MainStepQueue(cfg, s, a);
    MainStepPorts(cfg, s, a);
  }

  lemma MainStepQueue(cfg: Config, s: System, a: Action)
    requires Inv(cfg, s) && Enabled(cfg, s, a) && !a.RunCallback?
    ensures
      var s' := Next(cfg, s, a);
      Outstanding(s') == Outstanding(s) || (s'.pending.Some? && Outstanding(s') == Outstanding(s) + [s'.pending.value]
        && (s'.pending.value.AddChannel? ==> a.MainAdd? && s'.pending.value == AddChannel(s.nextPort)))
  {
    hide Mirrored, PortsFresh, BuffersTidy, Accounted, Callback, Add, Remove;
  }

  lemma MainStepTidy(cfg: Config, s: System, a: Action)
    requires Inv(cfg, s) && Enabled(cfg, s, a) && !a.RunCallback?
    ensures BuffersTidy(cfg, Next(cfg, s, a))
  {
    hide Mirrored, Accounted, Callback, Add, Remove, Tidy, NoPanic, Replays;
    var s' := Next(cfg, s, a);
    MainStepQueue(cfg, s, a);
    MainStepPorts(cfg, s, a);
    MainStepBuffers(cfg, s, a);
    var chans := s.dev.table.chans;
    forall c | 0 <= c < |chans| && chans[c].Some? && InMain(s', chans[c].value.port)
      ensures Tidy(chans[c].value, s'.bufs, s'.clock, cfg.nframes)
    {
      assert UsesPort(chans, chans[c].value.port);
      assert Tidy(chans[c].value, s.bufs, s.clock, cfg.nframes);
      TidyElsewhere(chans[c].value, s.bufs, s'.bufs, s.clock, cfg.nframes);
    }
  }

  /** Tidiness looks at the channel's own buffer only. */
  lemma TidyElsewhere(ch: DeviceChannel, bufs: Buffers, bufs': Buffers, clock: nat, nframes: nat)
    requires Tidy(ch, bufs, clock, nframes)
    requires ch.port in bufs && ch.port in bufs' && bufs'[ch.port] == bufs[ch.port]
    ensures Tidy(ch, bufs', clock, nframes)
  {
  }

  /** A step of the main thread adds at most the buffer of the port just registered. */
  lemma MainStepBuffers(cfg: Config, s: System, a: Action)
    requires Inv(cfg, s) && Enabled(cfg, s, a) && !a.RunCallback?
    ensures
      var s' := Next(cfg, s, a);
      && s'.bufs == (if a.MainAdd? then s.bufs[s.nextPort := Silence(cfg.nframes)] else s.bufs)
      && s'.clock == s.clock && s'.dev.table == s.dev.table
  {
    hide Mirrored, PortsFresh, BuffersTidy, Accounted, Callback, Add, Remove;
  }

  lemma MainStepPorts(cfg: Config, s: System, a: Action)
    requires Inv(cfg, s) && Enabled(cfg, s, a) && !a.RunCallback?
    ensures forall port: nat :: InMain(Next(cfg, s, a), port) ==> InMain(s, port) || (a.MainAdd? && port == s.nextPort)
  {
    var max, s' := cfg.limits.maxChans, Next(cfg, s, a);
    if a.MainAdd? && !Full(s.main, max) {
      AddKeepsTable(s.main, max, s.nextPort);
    } else if a.MainRemove? && Lookup(s.main, a.slot).Some? {
      RemoveKeepsTable(s.main, max, a.slot);
    }
    forall port: nat | InMain(s', port) ensures InMain(s, port) || (a.MainAdd? && port == s.nextPort) {
      var c: nat :| c < |s'.main.chans| && s'.main.chans[c] == Some(port);
      assert Lookup(s'.main, c) == Some(port);
      assert s'.main == s.main || Lookup(s.main, c) == Some(port) || port == s.nextPort;
    }
  }

  /** What handling a command does to the slots of the device. */
  lemma HandledSlots(d: DeviceState, limits: Limits, cmd: Command)
    requires Valid(d.table, limits.maxChans) && CanHandle(Ports(d.table), limits.maxChans, cmd)
    ensures HeadHoleExists(d.table)
    ensures
      var t' := Handle(d, limits, cmd).0.table;
      forall c: nat :: Lookup(t', c) ==
        (match cmd
         case AddPlayer(_) => Lookup(d.table, c)
         case AddChannel(port) => if c == NextSlot(d.table) then Some(NewChannel(port)) else Lookup(d.table, c)
         case RemoveChannel(slot) => if c == slot then None else Lookup(d.table, c))
  {
    ValidHeadHole(d.table, limits.maxChans);
    match cmd
    case AddPlayer(_) =>
    case AddChannel(port) => AddKeepsTable(d.table, limits.maxChans, NewChannel(port));
    case RemoveChannel(slot) =>
      assert Lookup(Ports(d.table), slot).Some? <==> Lookup(d.table, slot).Some?;
      RemoveKeepsTable(d.table, limits.maxChans, slot);
  }

  /** Every slot of the table scanned in a callback held its port before, or got it from the command. */
  ghost predicate FromTableOrHead(cfg: Config, s: System, c: nat, ch: DeviceChannel) {
    || Lookup(s.dev.table, c) == Some(ch)
    || (s.queue != [] && s.queue[0] == AddChannel(ch.port) && c == NextSlot(s.dev.table) && ch == NewChannel(ch.port))
  }

  lemma ScannedSlots(cfg: Config, s: System, a: Action)
    requires Inv(cfg, s) && Enabled(cfg, s, a) && a.RunCallback?
    ensures HeadHoleExists(s.dev.table)
    ensures
      var chans := Scanned(cfg, s).table.chans;
      && PortsDistinct(chans)
      && (forall c :: 0 <= c < |chans| && chans[c].Some? ==> FromTableOrHead(cfg, s, c, chans[c].value))
  {
    hide Process, Tidy;
    ValidPorts(s.dev.table, cfg.limits.maxChans);
    OutstandingAfterCallback(cfg, s, a);
    var t := Scanned(cfg, s).table;
    if s.queue != [] {
      HandledSlots(s.dev, cfg.limits, s.queue[0]);
    }
    forall c | 0 <= c < |t.chans| && t.chans[c].Some? ensures FromTableOrHead(cfg, s, c, t.chans[c].value) {
      assert Lookup(t, c) == t.chans[c];
    }
    forall x, y | 0 <= x < y < |t.chans| && t.chans[x].Some? && t.chans[y].Some?
      ensures t.chans[x].value.port != t.chans[y].value.port
    {
      assert FromTableOrHead(cfg, s, x, t.chans[x].value) && FromTableOrHead(cfg, s, y, t.chans[y].value);
      assert Lookup(s.dev.table, x) == Some(t.chans[x].value) ==> UsesPort(s.dev.table.chans, t.chans[x].value.port);
      assert Lookup(s.dev.table, y) == Some(t.chans[y].value) ==> UsesPort(s.dev.table.chans, t.chans[y].value.port);
    }
  }

  lemma ScannedUses(cfg: Config, s: System, a: Action, port: nat)
    requires Inv(cfg, s) && Enabled(cfg, s, a) && a.RunCallback?
    requires HeadHoleExists(s.dev.table) && UsesPort(Scanned(cfg, s).table.chans, port)
    ensures UsesPort(s.dev.table.chans, port) || (s.queue != [] && s.queue[0] == AddChannel(port))
  {
    ScannedSlots(cfg, s, a);
    var chans := Scanned(cfg, s).table.chans;
    var c :| 0 <= c < |chans| && chans[c].Some? && chans[c].value.port == port;
    assert FromTableOrHead(cfg, s, c, chans[c].value);
  }

  lemma CallbackPortsFresh(cfg: Config, s: System, a: Action)
    requires Inv(cfg, s) && Enabled(cfg, s, a) && a.RunCallback?
    ensures PortsFresh(Next(cfg, s, a))
  {
    hide Process, Handle, Tidy, Replays;
    var s' := Next(cfg, s, a);
    CallbackIsProcess(cfg, s, a);
    OutstandingAfterCallback(cfg, s, a);
    ScannedSlots(cfg, s, a);
    SizedAvailable(cfg, s, a.available);
    var d := Scanned(cfg, s);
    ProcessKeepsPorts(d, Available(s.bufs, a.available), Env(a.time, cfg.rate, cfg.nframes));
    forall port: nat | UsesPort(s'.dev.table.chans, port)
      ensures UsesPort(s.dev.table.chans, port) || (s.queue != [] && s.queue[0] == AddChannel(port))
    {
      SamePortsUse(s'.dev.table.chans, d.table.chans, port);
      ScannedUses(cfg, s, a, port);
    }
    assert forall port: nat :: InMain(s', port) <==> InMain(s, port);
  }

  lemma ScannedTidy(cfg: Config, s: System, a: Action, c: nat)
    requires Inv(cfg, s) && Enabled(cfg, s, a) && a.RunCallback?
    requires HeadHoleExists(s.dev.table)
    requires Lookup(Scanned(cfg, s).table, c).Some? && InMain(s, Lookup(Scanned(cfg, s).table, c).value.port)
    ensures Tidy(Lookup(Scanned(cfg, s).table, c).value, Available(s.bufs, a.available), s.clock, cfg.nframes)
  {
    ScannedSlots(cfg, s, a);
    OutstandingAfterCallback(cfg, s, a);
    var ch := Scanned(cfg, s).table.chans[c].value;
    assert FromTableOrHead(cfg, s, c, ch);
    assert ch.port in a.available && ch.port in s.bufs;
    assert Tidy(ch, s.bufs, s.clock, cfg.nframes);
  }

  /** The main result for the whole engine: whenever the invariant holds, a callback leaves in the buffer
      of each channel that the main thread still holds exactly the simple mix of that callback. */
  lemma CallbackOutput(cfg: Config, s: System, a: Action, c: nat)
    requires Inv(cfg, s) && Enabled(cfg, s, a) && a.RunCallback?
    requires c < |Next(cfg, s, a).dev.table.chans| && Next(cfg, s, a).dev.table.chans[c].Some?
    requires InMain(s, Next(cfg, s, a).dev.table.chans[c].value.port)
    ensures HeadHoleExists(s.dev.table)
    ensures
      var s', d := Next(cfg, s, a), Scanned(cfg, s);
      var out, env := Available(s.bufs, a.available), Env(a.time, cfg.rate, cfg.nframes);
      var port := s'.dev.table.chans[c].value.port;
      && port in s'.bufs
      && s'.bufs[port] == SimpleMix(d.players, |d.players|, c, d.table.chans, out, env)
      && Tidy(s'.dev.table.chans[c].value, s'.bufs, s'.clock, cfg.nframes)
  {
    CallbackIsProcess(cfg, s, a);
    ScannedSlots(cfg, s, a);
    SizedAvailable(cfg, s, a.available);
    var d, out := Scanned(cfg, s), Available(s.bufs, a.available);
    var env := Env(a.time, cfg.rate, cfg.nframes);
    ProcessKeepsPorts(d, out, env);
    assert d.table.chans[c].Some?;
    ScannedTidy(cfg, s, a, c);
    ProcessMixesAfresh(d, out, env, s.clock, c);
  }

  lemma QueuedStaySilent(cfg: Config, s: System, a: Action, k: nat)
    requires Inv(cfg, s) && Enabled(cfg, s, a) && a.RunCallback?
    requires k < |Outstanding(Next(cfg, s, a))| && Outstanding(Next(cfg, s, a))[k].AddChannel?
    requires InMain(s, Outstanding(Next(cfg, s, a))[k].port)
    ensures
      var port := Outstanding(Next(cfg, s, a))[k].port;
      port in Next(cfg, s, a).bufs && Next(cfg, s, a).bufs[port] == Silence(cfg.nframes)
  {
    var port := Outstanding(Next(cfg, s, a))[k].port;
    OutstandingAfterCallback(cfg, s, a);
    CallbackIsProcess(cfg, s, a);
    SizedAvailable(cfg, s, a.available);
    assert port in s.bufs && s.bufs[port] == Silence(cfg.nframes);
    var d := Scanned(cfg, s);
    if UsesPort(d.table.chans, port) {
      ScannedUses(cfg, s, a, port);
      assert false;
    }
    ProcessLeavesOthers(d, Available(s.bufs, a.available), Env(a.time, cfg.rate, cfg.nframes), port);
  }

  lemma CallbackTidy(cfg: Config, s: System, a: Action)
    requires Inv(cfg, s) && Enabled(cfg, s, a) && a.RunCallback?
    ensures BuffersTidy(cfg, Next(cfg, s, a))
  {
    var s' := Next(cfg, s, a);
    CallbackIsProcess(cfg, s, a);
    SizedAvailable(cfg, s, a.available);
    ProcessKeepsPorts(Scanned(cfg, s), Available(s.bufs, a.available), Env(a.time, cfg.rate, cfg.nframes));
    assert forall port: nat :: InMain(s', port) <==> InMain(s, port);
    forall c | 0 <= c < |s'.dev.table.chans| && s'.dev.table.chans[c].Some?
      && InMain(s', s'.dev.table.chans[c].value.port)
      ensures Tidy(s'.dev.table.chans[c].value, s'.bufs, s'.clock, cfg.nframes)
    {
      CallbackOutput(cfg, s, a, c);
    }
    var cmds := Outstanding(s');
    forall k | 0 <= k < |cmds| && cmds[k].AddChannel? && InMain(s', cmds[k].port)
      ensures cmds[k].port in s'.bufs && s'.bufs[cmds[k].port] == Silence(cfg.nframes)
    {
      QueuedStaySilent(cfg, s, a, k);
    }
  }

  /** Every step of either thread keeps the invariant. */
  lemma StepKeepsInv(cfg: Config, s: System, a: Action)
    requires Inv(cfg, s) && Enabled(cfg, s, a)
    ensures Inv(cfg, Next(cfg, s, a))
  {
    if a.RunCallback? {
      CallbackMirrors(cfg, s, a);
      CallbackPortsFresh(cfg, s, a);
      CallbackTidy(cfg, s, a);
      CallbackAccounts(s.dev, cfg.limits, Head(s.queue), Available(s.bufs, a.available),
                       Env(a.time, cfg.rate, cfg.nframes));
    } else {
      MainStepMirrors(cfg, s, a);
      MainStepFresh(cfg, s, a);
      MainStepTidy(cfg, s, a);
    }
    NeverPanics(cfg, Next(cfg, s, a));
  }

  // ---- runs ----

  ghost predicate Reaches(cfg: Config, s: System, actions: seq<Action>, s': System)
    decreases |actions|
  {
    if actions == [] then s' == s
    else
      && Enabled(cfg, s, actions[0])
      && Reaches(cfg, Next(cfg, s, actions[0]), actions[1..], s')
  }

  lemma {:induction false} ReachableInv(cfg: Config, s: System, actions: seq<Action>, s': System)
    requires Inv(cfg, s) && Reaches(cfg, s, actions, s')
    ensures Inv(cfg, s')
    decreases |actions|
  {
    if actions != [] {
      StepKeepsInv(cfg, s, actions[0]);
      ReachableInv(cfg, Next(cfg, s, actions[0]), actions[1..], s');
    }
  }

  lemma NothingOutstanding(cfg: Config, s: System)
    requires Mirrored(cfg, s) && Outstanding(s) == []
    ensures Ports(s.dev.table) == s.main
  {
  }

  lemma SameSlots(t: Table<DeviceChannel>)
    ensures forall slot: nat :: match Lookup(t, slot)
                                case None => Lookup(Ports(t), slot) == None
                                case Some(ch) => Lookup(Ports(t), slot) == Some(ch.port)
  {
  }

  /** From start-up, in every interleaving: replaying what is outstanding on the audio thread's table
      gives exactly the main thread's; with nothing outstanding every slot means the same port on
      both sides. */
  lemma MirrorProtocol(cfg: Config, actions: seq<Action>, s: System)
    requires cfg.limits.maxChans >= 1
    requires Reaches(cfg, Initial(), actions, s)
    ensures NoPanic(s)
    ensures Replays(Ports(s.dev.table), cfg.limits.maxChans, Outstanding(s), s.main)
    ensures Outstanding(s) == [] ==> Ports(s.dev.table) == s.main
    ensures Outstanding(s) == [] ==>
              forall slot: nat :: match Lookup(s.dev.table, slot)
                                  case None => Lookup(s.main, slot) == None
                                  case Some(ch) => Lookup(s.main, slot) == Some(ch.port)
  {
    hide Next, Callback, Reaches, Replays, Lookup, Ports, PortsFresh, BuffersTidy, Accounted;
    InitialInv(cfg);
    ReachableInv(cfg, Initial(), actions, s);
    if Outstanding(s) == [] {
      NothingOutstanding(cfg, s);
      SameSlots(s.dev.table);
    }
  }

  /** From start-up, in every interleaving: after each callback every channel that both threads hold
      carries exactly the simple mix of the players of that callback. */
  lemma MixerRefinesZeroThenMix(cfg: Config, actions: seq<Action>, s: System, a: Action, c: nat)
    requires cfg.limits.maxChans >= 1
    requires Reaches(cfg, Initial(), actions, s) && Enabled(cfg, s, a) && a.RunCallback?
    requires Lookup(Next(cfg, s, a).dev.table, c).Some?
    requires InMain(s, Lookup(Next(cfg, s, a).dev.table, c).value.port)
    ensures NoPanic(s)
    ensures
      var d, port := Scanned(cfg, s), Lookup(Next(cfg, s, a).dev.table, c).value.port;
      && port in Next(cfg, s, a).bufs
      && Next(cfg, s, a).bufs[port] ==
           SimpleMix(d.players, |d.players|, c, d.table.chans, Available(s.bufs, a.available),
                     Env(a.time, cfg.rate, cfg.nframes))
      && (forall k :: 0 <= k < cfg.nframes ==>
            MixesTo(d.players, c, d.table.chans, Available(s.bufs, a.available),
                    Env(a.time, cfg.rate, cfg.nframes), k, Next(cfg, s, a).bufs[port][k]))
  {
    InitialInv(cfg);
    ReachableInv(cfg, Initial(), actions, s);
    CallbackOutput(cfg, s, a, c);
    var d, out := Scanned(cfg, s), Available(s.bufs, a.available);
    var env := Env(a.time, cfg.rate, cfg.nframes);
    forall k | 0 <= k < cfg.nframes
      ensures MixesTo(d.players, c, d.table.chans, out, env, k,
                      SimpleMix(d.players, |d.players|, c, d.table.chans, out, env)[k])
    {
      SimpleMixLevels(d.players, c, d.table.chans, out, env, k);
    }
  }

  /** A run of callbacks only. */
  ghost predicate OnlyCallbacks(actions: seq<Action>) {
    forall k :: 0 <= k < |actions| ==> actions[k].RunCallback?
  }

  lemma CallbackPops(cfg: Config, s: System, a: Action)
    requires Enabled(cfg, s, a) && NoPanic(s) && a.RunCallback?
    ensures
      var s' := Next(cfg, s, a);
      s'.pending == s.pending && s'.main == s.main && s'.queue == if s.queue == [] then [] else s.queue[1..]
  {
    hide Callback;
  }

  /** As many callbacks as there are queued commands drain the queue. */
  lemma {:induction false} CallbacksDrain(cfg: Config, s: System, actions: seq<Action>, s': System)
    requires Inv(cfg, s) && s.pending.None? && OnlyCallbacks(actions) && |actions| >= |s.queue|
    requires Reaches(cfg, s, actions, s')
    ensures Outstanding(s') == [] && Ports(s'.dev.table) == s.main == s'.main
    decreases |actions|
  {
    hide Next, Mirrored, PortsFresh, BuffersTidy, Accounted, Ports, NoPanic;
    if actions == [] {
      assert Outstanding(s) == [];
      NothingOutstanding(cfg, s);
    } else {
      StepKeepsInv(cfg, s, actions[0]);
      CallbackPops(cfg, s, actions[0]);
      CallbacksDrain(cfg, Next(cfg, s, actions[0]), actions[1..], s');
    }
  }
}
