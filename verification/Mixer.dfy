/** The mixer: named channels with uuids, each standing for a slot of the realtime engine. */
module Mixer {
  import opened Containers
  import opened ChannelTable
  import opened Engine
  import opened Document
  import Text

  /** What JACK answers, by position in the configuration or by uuid. */
  datatype Jack = Jack(registers: nat -> Result<nat, EngineError>, renames: nat -> bool, connects: nat -> bool,
                       unregisters: nat -> bool)

  ghost predicate Good(jack: Jack) {
    forall i :: jack.registers(i).Ok? && jack.renames(i) && jack.connects(i) && jack.unregisters(i)
  }

  type Channels = map<nat, MixerChannel>

  // ---- who owns which slot ----

  /** The channels' slots are exactly the live ones, one each. */
  ghost predicate Owns(t: Table<nat>, channels: Channels) {
    && (forall u :: u in channels ==> Lookup(t, channels[u].eid).Some?)
    && (forall u, v :: u in channels && v in channels && u != v ==> channels[u].eid != channels[v].eid)
    && (forall i: nat :: Lookup(t, i).Some? ==> i in Slots(channels))
  }

  function Slots(channels: Channels): set<nat> {
    set u | u in channels :: channels[u].eid
  }

  /** A touched channel whose slot is empty, or taken by another touched channel. */
  ghost predicate Stray(t: Table<nat>, channels: Channels, touched: seq<nat>, u: nat) {
    && u in channels && u in touched
    && (Lookup(t, channels[u].eid).None?
        || exists v :: v in channels && v in touched && v != u && channels[v].eid == channels[u].eid)
  }

  lemma StrayNotOwned(t: Table<nat>, channels: Channels, touched: seq<nat>, u: nat)
    requires Stray(t, channels, touched, u)
    ensures !Owns(t, channels)
  {
  }

  lemma StrayStays(t: Table<nat>, channels: Channels, touched: seq<nat>, u: nat)
    requires Stray(t, channels, touched, u)
    ensures Stray(t, Kept(channels, Listed(touched)), touched, u)
  {
    var kept := Kept(channels, Listed(touched));
    if Lookup(t, channels[u].eid).Some? {
      var v :| v in channels && v in touched && v != u && channels[v].eid == channels[u].eid;
      assert v in kept && kept[v].eid == kept[u].eid;
    }
  }

  /** A configured channel has the name of an existing channel with another uuid. */
  ghost predicate Clash(channels: Channels, conf: MixerConf) {
    exists u: nat, k: nat :: Clashes(channels, conf, u, k)
  }

  predicate Clashes(channels: Channels, conf: MixerConf, u: nat, k: nat) {
    u in channels && k < |conf.channels| && channels[u].name == conf.channels[k].name
      && channels[u].uuid != conf.channels[k].uuid
  }

  function UuidsOf(chs: seq<MixerChannel>): set<nat> {
    if chs == [] then {} else UuidsOf(chs[..|chs| - 1]) + {chs[|chs| - 1].uuid}
  }

  lemma {:induction false} UuidsListed(chs: seq<MixerChannel>, i: nat)
    requires i < |chs|
    ensures chs[i].uuid in UuidsOf(chs) && UuidsOf(chs[..i]) <= UuidsOf(chs)
  {
    if i < |chs| - 1 {
      UuidsListed(chs[..|chs| - 1], i);
      assert chs[..|chs| - 1][..i] == chs[..i];
    }
  }

  lemma AllListed(chs: seq<MixerChannel>)
    ensures forall i :: 0 <= i < |chs| ==> chs[i].uuid in UuidsOf(chs)
  {
    forall i | 0 <= i < |chs| ensures chs[i].uuid in UuidsOf(chs) {
      UuidsListed(chs, i);
    }
  }

  function Retained(defs: seq<nat>, keep: set<nat>): (r: seq<nat>)
    ensures forall u :: u in r <==> u in defs && u in keep
  {
    if defs == [] then [] else (if defs[0] in keep then [defs[0]] else []) + Retained(defs[1..], keep)
  }

  /** Retaining keeps the order and every mention. */
  lemma {:induction false} RetainedInOrder(defs: seq<nat>, keep: set<nat>, i: nat)
    requires i < |defs|
    ensures Retained(defs, keep)
            == Retained(defs[..i], keep) + (if defs[i] in keep then [defs[i]] else []) + Retained(defs[i + 1..], keep)
    ensures Retained([], keep) == []
  {
    hide Retained;
    RetainedHead(defs, keep);
    if i > 0 {
      RetainedInOrder(defs[1..], keep, i - 1);
      RetainedHead(defs[..i], keep);
      SlicesOfRest(defs, i);
      Regroup(if defs[0] in keep then [defs[0]] else [], Retained(defs[..i][1..], keep),
              if defs[i] in keep then [defs[i]] else [], Retained(defs[i + 1..], keep));
    }
  }

  lemma SlicesOfRest(s: seq<nat>, i: nat)
    requires 0 < i < |s|
    ensures s[1..][..i - 1] == s[..i][1..] && s[1..][i - 1] == s[i] && s[1..][i..] == s[i + 1..] && s[..i][0] == s[0]
  {
  }

  lemma Regroup(a: seq<nat>, b: seq<nat>, c: seq<nat>, d: seq<nat>)
    ensures a + (b + c + d) == (a + b) + c + d
  {
  }

  lemma RetainedHead(defs: seq<nat>, keep: set<nat>)
    requires defs != []
    ensures Retained(defs, keep) == (if defs[0] in keep then [defs[0]] else []) + Retained(defs[1..], keep)
    ensures Retained([], keep) == [] && Retained(defs[..0], keep) == []
  {
  }

  function Kept(channels: Channels, keep: set<nat>): Channels {
    map u | u in channels && u in keep :: channels[u]
  }

  // ---- the table under one channel's coming and going ----

  lemma AddCounts(t: Table<nat>, max: nat, port: nat)
    requires Valid(t, max) && !Full(t, max)
    ensures HeadHoleExists(t) && LiveCount(Add(t, max, port).chans) == LiveCount(t.chans) + 1
    ensures |Add(t, max, port).chans| >= |t.chans| && NextSlot(t) < |Add(t, max, port).chans|
  {
    AddKeepsTable(t, max, port);
    FullMeansLive(t, max);
    FullMeansLive(Add(t, max, port), max);
  }

  lemma AddOwns(t: Table<nat>, max: nat, port: nat, channels: Channels, ch: MixerChannel)
    requires Valid(t, max) && !Full(t, max) && Owns(t, channels) && ch.uuid !in channels && ch.eid == NextSlot(t)
    ensures HeadHoleExists(t) && Owns(Add(t, max, port), channels[ch.uuid := ch])
  {
    AddKeepsTable(t, max, port);
    var channels' := channels[ch.uuid := ch];
    forall i: nat | Lookup(Add(t, max, port), i).Some? ensures i in Slots(channels') {
      if i != NextSlot(t) {
        var u :| u in channels && channels[u].eid == i;
        assert u in channels' && channels'[u].eid == i;
      } else {
        assert channels'[ch.uuid].eid == i;
      }
    }
  }

  lemma AddKeepsStray(t: Table<nat>, max: nat, port: nat, channels: Channels, touched: seq<nat>, ch: MixerChannel,
                      u: nat)
    requires Valid(t, max) && !Full(t, max) && ch.uuid !in channels && ch.eid == NextSlot(t)
    requires Stray(t, channels, touched, u)
    ensures HeadHoleExists(t) && Stray(Add(t, max, port), channels[ch.uuid := ch], touched + [ch.uuid], u)
  {
    AddKeepsTable(t, max, port);
    var channels', touched' := channels[ch.uuid := ch], touched + [ch.uuid];
    if Lookup(t, channels[u].eid).None? {
      if channels[u].eid == NextSlot(t) {
        assert ch.uuid in channels' && ch.uuid in touched' && channels'[ch.uuid].eid == channels'[u].eid;
      }
    } else {
      var v :| v in channels && v in touched && v != u && channels[v].eid == channels[u].eid;
      assert v in channels' && v in touched' && channels'[v].eid == channels'[u].eid;
    }
  }

  lemma SameSlotsOwn(t: Table<nat>, channels: Channels, channels': Channels)
    requires channels'.Keys == channels.Keys && forall u :: u in channels ==> channels'[u].eid == channels[u].eid
    requires Owns(t, channels)
    ensures Owns(t, channels')
  {
    forall i: nat | Lookup(t, i).Some? ensures i in Slots(channels') {
      var u :| u in channels && channels[u].eid == i;
      assert channels'[u].eid == i;
    }
  }

  lemma RemoveOwns(t: Table<nat>, max: nat, channels: Channels, keep: set<nat>, u: nat)
    requires Valid(t, max) && u in channels && u in keep && Owns(t, Kept(channels, keep))
    ensures Lookup(t, channels[u].eid).Some?
    ensures Owns(Remove(t, max, channels[u].eid), Kept(channels, keep - {u}))
  {
    var here, rest := Kept(channels, keep), Kept(channels, keep - {u});
    assert u in here;
    var t' := Remove(t, max, channels[u].eid);
    RemoveKeepsTable(t, max, channels[u].eid);
    forall i: nat | Lookup(t', i).Some? ensures i in Slots(rest) {
      var v :| v in here && here[v].eid == i;
      assert v in rest && rest[v].eid == i;
    }
  }

  /** How many of the first i configured channels are new. */
  ghost function NewAmong(chs: seq<MixerChannel>, i: nat, known: set<nat>): nat
    requires i <= |chs|
  {
    |UuidsOf(chs[..i]) - known|
  }

  lemma UuidsGrow(chs: seq<MixerChannel>, i: nat, known: set<nat>)
    requires i < |chs|
    ensures UuidsOf(chs[..i + 1]) == UuidsOf(chs[..i]) + {chs[i].uuid}
    ensures NewAmong(chs, i + 1, known)
            == NewAmong(chs, i, known) + (if chs[i].uuid in known + UuidsOf(chs[..i]) then 0 else 1)
    ensures chs[i].uuid !in known + UuidsOf(chs[..i]) ==> NewAmong(chs, i, known) < NewAmong(chs, |chs|, known)
  {
    var u := chs[i].uuid;
    assert chs[..i + 1][..i] == chs[..i];
    assert chs[..|chs|] == chs;
    UuidsListed(chs, i);
    var before, after := UuidsOf(chs[..i]) - known, UuidsOf(chs[..i + 1]) - known;
    if u in known + UuidsOf(chs[..i]) {
      assert after == before;
    } else {
      assert after == before + {u};
      SubsetSmaller(before, UuidsOf(chs) - known);
    }
  }

  /** The channels after some configured ones have been applied: none lost, none moved. */
  ghost predicate Applied(before: Channels, after: Channels, done: set<nat>) {
    && after.Keys == before.Keys + done
    && forall v :: v in before ==> after[v].eid == before[v].eid
  }

  ghost predicate FirstAt(chs: seq<MixerChannel>, k: nat)
    requires k < |chs|
  {
    forall j :: 0 <= j < k ==> chs[j].uuid != chs[k].uuid
  }

  ghost predicate LastAt(chs: seq<MixerChannel>, i: nat, k: nat)
    requires k < i <= |chs|
  {
    forall j :: k < j < i ==> chs[j].uuid != chs[k].uuid
  }

  /** What the first i configured channels make of the map: a known one is only renamed, whatever patch
      was configured; a new one has the patch of its first mention and the name of its last. */
  ghost predicate Configured(before: Channels, after: Channels, chs: seq<MixerChannel>, i: nat)
    requires i <= |chs|
  {
    && (forall v :: v in before ==> v in after && after[v] == before[v].(name := after[v].name))
    && (forall k :: 0 <= k < i && LastAt(chs, i, k) ==> chs[k].uuid in after && after[chs[k].uuid].name == chs[k].name)
    && (forall k :: 0 <= k < i && chs[k].uuid !in before && FirstAt(chs, k) ==>
          chs[k].uuid in after && after[chs[k].uuid].patch == chs[k].patch)
  }

  /** One configured channel applied. */
  ghost predicate ConfiguredOne(mid: Channels, after: Channels, ch: MixerChannel) {
    && ch.uuid in after && after[ch.uuid].name == ch.name
    && after[ch.uuid] == (if ch.uuid in mid then mid[ch.uuid].(name := ch.name) else after[ch.uuid].(patch := ch.patch))
    && forall v :: v in mid && v != ch.uuid ==> v in after && after[v] == mid[v]
  }

  lemma ConfiguredMore(before: Channels, mid: Channels, after: Channels, chs: seq<MixerChannel>, i: nat)
    requires i < |chs| && Configured(before, mid, chs, i) && ConfiguredOne(mid, after, chs[i])
    requires mid.Keys == before.Keys + UuidsOf(chs[..i])
    ensures Configured(before, after, chs, i + 1)
  {
    hide FirstAt, LastAt, UuidsOf;
    forall k | 0 <= k < i + 1 && LastAt(chs, i + 1, k)
      ensures chs[k].uuid in after && after[chs[k].uuid].name == chs[k].name
    {
      if k < i {
        LastBefore(chs, i, k);
      }
    }
    forall k | 0 <= k < i + 1 && chs[k].uuid !in before && FirstAt(chs, k)
      ensures chs[k].uuid in after && after[chs[k].uuid].patch == chs[k].patch
    {
      if k < i {
        assert chs[k].uuid in mid && mid[chs[k].uuid].patch == chs[k].patch;
      } else {
        FirstIsNew(chs, i);
      }
    }
  }

  lemma LastBefore(chs: seq<MixerChannel>, i: nat, k: nat)
    requires k < i < |chs| && LastAt(chs, i + 1, k)
    ensures LastAt(chs, i, k) && chs[k].uuid != chs[i].uuid
  {
  }

  lemma FirstIsNew(chs: seq<MixerChannel>, i: nat)
    requires i < |chs| && FirstAt(chs, i)
    ensures chs[i].uuid !in UuidsOf(chs[..i])
  {
    NotListed(chs[..i], chs[i].uuid);
  }

  lemma {:induction false} NotListed(chs: seq<MixerChannel>, u: nat)
    requires forall j :: 0 <= j < |chs| ==> chs[j].uuid != u
    ensures u !in UuidsOf(chs)
  {
    if chs != [] {
      NotListed(chs[..|chs| - 1], u);
    }
  }

  lemma AppliedMore(a: Channels, b: Channels, c: Channels, done: set<nat>, u: nat)
    requires Applied(a, b, done) && Applied(b, c, {u})
    ensures Applied(a, c, done + {u})
  {
  }

  lemma KeysApplied(before: Channels, after: Channels, done: set<nat>)
    requires Applied(before, after, done)
    ensures after.Keys == before.Keys + done
  {
  }

  function Listed(touched: seq<nat>): set<nat> {
    set v | v in touched
  }

  lemma ListedMore(given: seq<nat>, touched: seq<nat>, done: set<nat>, u: nat)
    requires Listed(touched) == Listed(given) + done
    ensures Listed(touched + [u]) == Listed(given) + (done + {u})
  {
    assert Listed(touched + [u]) == Listed(touched) + {u};
  }

  lemma SubsetSmaller(a: set<nat>, b: set<nat>)
    requires a <= b
    ensures |a| <= |b|
    ensures a != b ==> |a| < |b|
  {
    assert b == a + (b - a);
    assert a != b ==> b - a != {};
  }

  /** The first n ports have a channel each; the channels of before are still there. */
  ghost predicate Defaulted(before: Channels, after: Channels, ports: seq<string>, uuids: seq<nat>, n: nat)
    requires n <= |ports| == |uuids|
  {
    && (forall u :: u in after <==> u in before || u in uuids[..n])
    && (forall u :: u in before ==> u in after && after[u] == before[u])
    && forall i :: 0 <= i < n ==>
         && uuids[i] in after && after[uuids[i]].name == "default-chan-" + Text.Decimal(i)
         && after[uuids[i]].patch == Some(ports[i])
  }

  lemma AtFirst(before: Channels, ports: seq<string>, uuids: seq<nat>)
    requires |ports| == |uuids| && forall i :: 0 <= i < |uuids| ==> uuids[i] !in before
    ensures Defaulted(before, before, ports, uuids, 0)
  {
  }

  lemma NextIsNew(before: Channels, after: Channels, ports: seq<string>, uuids: seq<nat>, n: nat)
    requires n < |ports| == |uuids| && Defaulted(before, after, ports, uuids, n)
    requires NoDup(uuids) && uuids[n] !in before
    ensures uuids[n] !in after
  {
  }

  lemma AllDefaulted(before: Channels, after: Channels, ports: seq<string>, uuids: seq<nat>)
    requires |ports| == |uuids| && Defaulted(before, after, ports, uuids, |ports|)
    ensures forall u :: u in after <==> u in before || u in uuids
    ensures forall u :: u in before ==> after[u] == before[u]
    ensures forall i :: 0 <= i < |ports| ==>
              after[uuids[i]].name == "default-chan-" + Text.Decimal(i) && after[uuids[i]].patch == Some(ports[i])
  {
    assert uuids[..|uuids|] == uuids;
  }

  lemma DefaultedMore(before: Channels, mid: Channels, after: Channels, ports: seq<string>, uuids: seq<nat>, n: nat)
    requires n < |ports| == |uuids| && NoDup(uuids) && uuids[n] !in before
    requires Defaulted(before, mid, ports, uuids, n) && after.Keys == mid.Keys + {uuids[n]}
    requires forall u :: u in mid && u != uuids[n] ==> after[u] == mid[u]
    requires after[uuids[n]].name == "default-chan-" + Text.Decimal(n) && after[uuids[n]].patch == Some(ports[n])
    ensures Defaulted(before, after, ports, uuids, n + 1)
  {
    assert uuids[..n + 1] == uuids[..n] + [uuids[n]];
    assert forall i :: 0 <= i < n ==> uuids[i] != uuids[n];
  }

  class MixerContext {
    const engine: EngineContext
    var channels: Channels
    var defs: seq<nat>

    constructor (engine: EngineContext)
      requires engine.Valid()
      ensures Sane() && this.engine == engine && channels == map[] && defs == []
    {
      this.engine := engine;
      channels, defs := map[], [];
    }

    ghost predicate Sane()
      reads this, engine
    {
      && engine.Valid()
      && (forall u :: u in channels ==> channels[u].uuid == u && channels[u].eid < |engine.chans|)
    }

    ghost predicate Owner()
      reads this, engine
    {
      Owns(engine.View(), channels)
    }

    function ObtainChannel(uu: nat): (r: Option<nat>)
      reads this
      ensures r.Some? <==> uu in channels
      ensures r.Some? ==> r.value == channels[uu].eid
    {
      if uu in channels then Some(channels[uu].eid) else None
    }

    /** A slot for a registered port; the map does not know of it yet. */
    method Attach(registered: Result<nat, EngineError>) returns (r: Result<nat, EngineError>)
      requires Sane()
      modifies engine, engine.control
      ensures Sane()
      ensures r.Ok? ==>
                && registered.Ok? && HeadHoleExists(old(engine.View())) && !Full(old(engine.View()), engine.maxChans)
                && engine.View() == Add(old(engine.View()), engine.maxChans, registered.value)
                && r.value == NextSlot(old(engine.View())) && r.value < |engine.chans|
                && LiveCount(engine.chans) == old(LiveCount(engine.chans)) + 1 <= engine.maxChans - 1
      ensures registered.Ok? ==> (r.Ok? <==> old(LiveCount(engine.chans)) < engine.maxChans - 1)
      ensures r.Err? ==> engine.View() == old(engine.View())
    {
      ghost var t := engine.View();
      FullMeansLive(t, engine.maxChans);
      r := engine.NewChannel(registered);
      if r.Ok? {
        AddCounts(t, engine.maxChans, registered.value);
        FullMeansLive(engine.View(), engine.maxChans);
      }
    }

    /** A channel with a slot of its own. It is put into the map only once it is connected. */
    method Create(name: string, uuid: nat, patch: Option<string>, registered: Result<nat, EngineError>, connected: bool)
      returns (r: Result<(), EngineError>)
      requires Sane() && uuid !in channels
      modifies this`channels, engine, engine.control
      ensures Sane()
      ensures r.Ok? ==>
                && registered.Ok? && HeadHoleExists(old(engine.View())) && !Full(old(engine.View()), engine.maxChans)
                && engine.View() == Add(old(engine.View()), engine.maxChans, registered.value)
                && channels == old(channels)[uuid := MixerChannel(name, uuid, NextSlot(old(engine.View())), patch)]
                && LiveCount(engine.chans) == old(LiveCount(engine.chans)) + 1 <= engine.maxChans - 1
      ensures registered.Ok? && connected ==> (r.Ok? <==> old(LiveCount(engine.chans)) < engine.maxChans - 1)
      ensures registered.Ok? && connected && r.Err? ==> channels == old(channels) && engine.View() == old(engine.View())
      ensures registered.Ok? && connected && old(Owner()) ==> Owner()
    {
      ghost var t := engine.View();
      assert ChannelTable.Valid(t, engine.maxChans);
      var made := Attach(registered);
      hide Owns, LiveCount, Lookup;
      if made.Err? {
        return Err(made.error);
      }
      if patch.Some? && !connected {
        return Err(JackError);
      }
      var ch := MixerChannel(name, uuid, made.value, patch);
      if Owns(t, channels) {
        AddOwns(t, engine.maxChans, registered.value, channels, ch);
      }
      channels := channels[uuid := ch];
      r := Ok(());
    }

    /** A channel per physical port. The uuids are new. */
    method DefaultConfig(ports: seq<string>, uuids: seq<nat>, jack: Jack) returns (r: Result<(), EngineError>)
      requires Sane() && |uuids| == |ports| && NoDup(uuids) && forall i :: 0 <= i < |uuids| ==> uuids[i] !in channels
      modifies this, engine, engine.control
      ensures Sane()
      ensures old(Owner()) && Good(jack) ==> Owner()
      ensures Good(jack) ==> (r.Ok? <==> old(LiveCount(engine.chans)) + |ports| <= engine.maxChans - 1)
      ensures r.Ok? ==> (forall u :: u in channels <==> u in old(channels) || u in uuids) && defs == old(defs) + uuids
      ensures r.Ok? ==>
                && (forall u :: u in old(channels) ==> channels[u] == old(channels)[u])
                && (forall i :: 0 <= i < |ports| ==>
                      && channels[uuids[i]].name == "default-chan-" + Text.Decimal(i)
                      && channels[uuids[i]].patch == Some(ports[i]))
    {
      hide Owns, LiveCount, Lookup, Text.Decimal, Full, Add, Defaulted;
      AtFirst(channels, ports, uuids);
      FullMeansLive(engine.View(), engine.maxChans);
      var i := 0;
      while i < |ports|
        invariant i <= |ports| && Sane()
        invariant old(Owner()) && Good(jack) ==> Owner()
        invariant LiveCount(engine.chans) == old(LiveCount(engine.chans)) + i
        invariant LiveCount(engine.chans) <= engine.maxChans - 1
        invariant Defaulted(old(channels), channels, ports, uuids, i) && defs == old(defs) + uuids[..i]
      {
        assert Good(jack) ==> jack.registers(i).Ok? && jack.connects(i);
        ghost var mid := channels;
        NextIsNew(old(channels), mid, ports, uuids, i);
        var made := Create("default-chan-" + Text.Decimal(i), uuids[i], Some(ports[i]), jack.registers(i),
                           jack.connects(i));
        if made.Err? {
          return made;
        }
        DefaultedMore(old(channels), mid, channels, ports, uuids, i);
        defs := defs + [uuids[i]];
        i := i + 1;
      }
      assert uuids[..i] == uuids;
      AllDefaulted(old(channels), channels, ports, uuids);
      r := Ok(());
    }

    /** Channels whose name is wanted for another uuid give up their slots, but stay in the map. */
    method DropClashing(conf: MixerConf, jack: Jack) returns (r: Result<(), EngineError>, touched: seq<nat>)
      requires Sane()
      modifies engine, engine.control
      ensures Sane() && |engine.chans| >= old(|engine.chans|)
      ensures !Clash(channels, conf) ==> r.Ok? && touched == [] && engine.View() == old(engine.View())
      ensures Clash(channels, conf) && r.Ok? ==> exists u :: Stray(engine.View(), channels, touched, u)
      ensures Clash(channels, conf) && r.Err? ==> !Owner()
    {
      touched := [];
      var left := channels.Keys;
      while left != {}
        invariant left <= channels.Keys && Sane() && |engine.chans| >= old(|engine.chans|)
        invariant !Clash(channels, conf) ==> touched == [] && engine.View() == old(engine.View())
        invariant forall u :: u in touched ==> u in channels && Lookup(engine.View(), channels[u].eid).None?
        invariant forall u: nat, k: nat :: Clashes(channels, conf, u, k) && u !in left ==> u in touched
      {
        var u :| u in left;
        var k := 0;
        while k < |conf.channels|
          invariant k <= |conf.channels| && Sane() && |engine.chans| >= old(|engine.chans|)
          invariant !Clash(channels, conf) ==> touched == [] && engine.View() == old(engine.View())
          invariant forall u :: u in touched ==> u in channels && Lookup(engine.View(), channels[u].eid).None?
          invariant forall v: nat, l: nat :: Clashes(channels, conf, v, l) && v !in left ==> v in touched
          invariant forall l: nat :: Clashes(channels, conf, u, l) && l < k ==> u in touched
        {
          if channels[u].name == conf.channels[k].name && channels[u].uuid != conf.channels[k].uuid {
            assert Clashes(channels, conf, u, k);
            var ok := Drop(u, jack);
            if !ok {
              return Err(JackError), touched;
            }
            touched := touched + [u];
          }
          k := k + 1;
        }
        left := left - {u};
      }
      r := Ok(());
      if u: nat, k: nat :| Clashes(channels, conf, u, k) {
        assert Stray(engine.View(), channels, touched, u);
      }
    }

    /** Frees a channel's slot; fails when it is free already or JACK does not let the port go. */
    method Drop(u: nat, jack: Jack) returns (ok: bool)
      requires Sane() && u in channels
      modifies engine, engine.control
      ensures Sane() && |engine.chans| >= old(|engine.chans|)
      ensures Lookup(engine.View(), channels[u].eid).None?
      ensures forall i: nat :: i != channels[u].eid ==> Lookup(engine.View(), i) == Lookup(old(engine.View()), i)
      ensures ok ==> engine.View() == Remove(old(engine.View()), engine.maxChans, channels[u].eid)
      ensures ok <==> Lookup(old(engine.View()), channels[u].eid).Some? && jack.unregisters(u)
    {
      ghost var t := engine.View();
      if Lookup(engine.View(), channels[u].eid).Some? {
        RemoveKeepsTable(t, engine.maxChans, channels[u].eid);
      }
      var res := engine.RemoveChannel(channels[u].eid, jack.unregisters(u));
      ok := res.Ok?;
    }

    /** A configured channel that exists keeps its slot; its port is renamed and repatched. */
    method Update(ch: MixerChannel, k: nat, jack: Jack) returns (r: Result<(), EngineError>)
      requires Sane() && ch.uuid in channels
      modifies this`channels
      ensures Sane()
      ensures old(Owner()) ==> Owner()
      ensures r.Ok? ==> channels == old(channels)[ch.uuid := old(channels)[ch.uuid].(name := ch.name)]
      ensures Good(jack) ==> (r.Ok? <==> Lookup(engine.View(), old(channels)[ch.uuid].eid).Some?)
      ensures Good(jack) && r.Err? ==> channels == old(channels)
    {
      assert Good(jack) ==> jack.renames(k) && jack.connects(k);
      var c2 := channels[ch.uuid];
      if engine.chans[c2.eid].None? {
        return Err(NoSuchChannel);
      }
      if ch.name != c2.name {
        if !jack.renames(k) {
          return Err(JackError);
        }
        channels := channels[ch.uuid := c2.(name := ch.name)];
        if Owns(engine.View(), old(channels)) {
          SameSlotsOwn(engine.View(), old(channels), channels);
        }
      } else {
        assert channels == channels[ch.uuid := c2];
      }
      if ch.patch != c2.patch && ch.patch.Some? && !jack.connects(k) {
        return Err(JackError);
      }
      r := Ok(());
    }

    method ApplyChannel(ch: MixerChannel, k: nat, jack: Jack, ghost touched: seq<nat>, ghost u: nat)
      returns (r: Result<(), EngineError>)
      requires Sane()
      modifies this`channels, engine, engine.control
      ensures Sane()
      ensures old(Owner()) && Good(jack) ==> Owner()
      ensures r.Ok? ==> Applied(old(channels), channels, {ch.uuid}) && ConfiguredOne(old(channels), channels, ch)
      ensures r.Ok? ==>
                LiveCount(engine.chans) == old(LiveCount(engine.chans)) + (if ch.uuid in old(channels) then 0 else 1)
      ensures LiveCount(engine.chans) <= engine.maxChans - 1
      ensures r.Ok? ==> forall i: nat :: Lookup(old(engine.View()), i).Some? ==>
                Lookup(engine.View(), i) == Lookup(old(engine.View()), i)
      ensures Good(jack) && r.Err? ==> channels == old(channels) && engine.View() == old(engine.View())
      ensures Good(jack) && old(Owner()) && r.Err? ==>
                ch.uuid !in channels && LiveCount(engine.chans) >= engine.maxChans - 1
      ensures r.Ok? && Stray(old(engine.View()), old(channels), touched, u) ==>
                Stray(engine.View(), channels, touched + [ch.uuid], u)
    {
      assert Good(jack) ==> jack.registers(k).Ok? && jack.connects(k);
      ghost var t := engine.View();
      if ch.uuid in channels {
        r := Update(ch, k, jack);
      } else {
        r := Create(ch.name, ch.uuid, ch.patch, jack.registers(k), jack.connects(k));
        if r.Ok? {
          AddKeepsTable(t, engine.maxChans, jack.registers(k).value);
          if Stray(t, old(channels), touched, u) {
            AddKeepsStray(t, engine.maxChans, jack.registers(k).value, old(channels), touched, channels[ch.uuid], u);
          }
        }
      }
      FullMeansLive(engine.View(), engine.maxChans);
    }

    /** One channel less; the slots of the others are not touched. */
    method RemoveOne(w: nat, jack: Jack, ghost keep: set<nat>, ghost touched: seq<nat>, ghost u: nat) returns (ok: bool)
      requires Sane() && w in channels && w in keep && w !in touched
      modifies engine, engine.control
      ensures Sane()
      ensures Owns(old(engine.View()), Kept(channels, keep)) && jack.unregisters(w) ==>
                ok && Owns(engine.View(), Kept(channels, keep - {w}))
      ensures Stray(old(engine.View()), channels, touched, u) ==> Stray(engine.View(), channels, touched, u)
      ensures forall i: nat :: i != channels[w].eid ==> Lookup(engine.View(), i) == Lookup(old(engine.View()), i)
    {
      ghost var t := engine.View();
      if Owns(t, Kept(channels, keep)) {
        RemoveOwns(t, engine.maxChans, channels, keep, w);
      }
      ok := Drop(w, jack);
    }

    /** Channels that are not configured any more give their slots back. */
    method RemoveUntouched(touched: seq<nat>, jack: Jack, ghost u: nat) returns (r: Result<(), EngineError>)
      requires Sane()
      modifies engine, engine.control
      ensures Sane()
      ensures old(Owner()) && Good(jack) ==> r.Ok? && Owns(engine.View(), Kept(channels, Listed(touched)))
      ensures Stray(old(engine.View()), channels, touched, u) ==> Stray(engine.View(), channels, touched, u)
    {
      ghost var keep := Listed(touched);
      var left := set v | v in channels && v !in touched;
      assert Kept(channels, keep + left) == channels;
      hide Owns, Stray, Lookup, Kept;
      while left != {}
        invariant left <= channels.Keys && left !! keep && Sane()
        invariant old(Owner()) && Good(jack) ==> Owns(engine.View(), Kept(channels, keep + left))
        invariant Stray(old(engine.View()), channels, touched, u) ==> Stray(engine.View(), channels, touched, u)
      {
        var w :| w in left;
        assert Good(jack) ==> jack.unregisters(w);
        var ok := RemoveOne(w, jack, keep + left, touched, u);
        if !ok {
          return Err(JackError);
        }
        assert keep + left - {w} == keep + (left - {w});
        left := left - {w};
      }
      assert keep + left == keep;
      r := Ok(());
    }

    /** The first i configured channels have been applied. */
    ghost predicate Midway(conf: MixerConf, i: nat, before: Channels, live: nat, given: seq<nat>, touched: seq<nat>)
      requires i <= |conf.channels|
      reads this, engine
    {
      && Sane()
      && LiveCount(engine.chans) == live + NewAmong(conf.channels, i, before.Keys)
      && LiveCount(engine.chans) <= engine.maxChans - 1
      && Applied(before, channels, UuidsOf(conf.channels[..i]))
      && Configured(before, channels, conf.channels, i)
      && Listed(touched) == Listed(given) + UuidsOf(conf.channels[..i])
    }

    lemma AtStart(conf: MixerConf, given: seq<nat>)
      requires Sane()
      ensures Midway(conf, 0, channels, LiveCount(engine.chans), given, given)
    {
      FullMeansLive(engine.View(), engine.maxChans);
      assert conf.channels[..0] == [];
    }

    lemma AtEnd(conf: MixerConf, before: Channels, live: nat, given: seq<nat>, touched: seq<nat>)
      requires Midway(conf, |conf.channels|, before, live, given, touched)
      ensures Sane() && live + |UuidsOf(conf.channels) - before.Keys| <= engine.maxChans - 1
      ensures Configured(before, channels, conf.channels, |conf.channels|)
      ensures Applied(before, channels, UuidsOf(conf.channels))
              && Listed(touched) == Listed(given) + UuidsOf(conf.channels)
    {
      assert conf.channels[..|conf.channels|] == conf.channels;
    }

    lemma WhatIsNext(conf: MixerConf, i: nat, before: Channels, done: set<nat>)
      requires i < |conf.channels| && done == UuidsOf(conf.channels[..i]) && Applied(before, channels, done)
      ensures UuidsOf(conf.channels[..i + 1]) == done + {conf.channels[i].uuid}
      ensures NewAmong(conf.channels, i + 1, before.Keys)
              == NewAmong(conf.channels, i, before.Keys) + (if conf.channels[i].uuid in channels then 0 else 1)
      ensures conf.channels[i].uuid !in channels ==>
                NewAmong(conf.channels, i, before.Keys) < |UuidsOf(conf.channels) - before.Keys|
    {
      UuidsGrow(conf.channels, i, before.Keys);
      assert conf.channels[..|conf.channels|] == conf.channels;
    }

    method ApplyNext(conf: MixerConf, i: nat, jack: Jack, given: seq<nat>, touched: seq<nat>,
                     ghost before: Channels, ghost live: nat, ghost u: nat)
      returns (r: Result<(), EngineError>, touched': seq<nat>)
      requires i < |conf.channels| && Midway(conf, i, before, live, given, touched)
      modifies this`channels, engine, engine.control
      ensures Sane()
      ensures old(Owner()) && Good(jack) ==> Owner()
      ensures r.Ok? ==> Midway(conf, i + 1, before, live, given, touched')
      ensures old(Owner()) && Good(jack) && r.Err? ==>
                live + |UuidsOf(conf.channels) - before.Keys| > engine.maxChans - 1
      ensures (r.Ok? || Good(jack)) && Stray(old(engine.View()), old(channels), touched, u) ==>
                Stray(engine.View(), channels, touched', u)
    {
      hide Owns, Stray, Lookup, LiveCount, NewAmong, UuidsOf, Applied, Listed, Good, Sane, ChannelTable.Valid,
        Configured, ConfiguredOne;
      var ch := conf.channels[i];
      ghost var done := UuidsOf(conf.channels[..i]);
      ListedMore(given, touched, done, ch.uuid);
      WhatIsNext(conf, i, before, done);
      ghost var mid := channels;
      touched' := touched;
      r := ApplyChannel(ch, i, jack, touched, u);
      if r.Ok? {
        AppliedMore(before, mid, channels, done, ch.uuid);
        KeysApplied(before, mid, done);
        ConfiguredMore(before, mid, channels, conf.channels, i);
        touched' := touched + [ch.uuid];
      }
    }

    /** The configured channels in order; on failure the earlier ones have been applied. */
    method ApplyChannels(conf: MixerConf, jack: Jack, given: seq<nat>, ghost u: nat)
      returns (r: Result<(), EngineError>, touched: seq<nat>)
      requires Sane()
      modifies this`channels, engine, engine.control
      ensures Sane()
      ensures old(Owner()) && Good(jack) ==> Owner()
      ensures old(Owner()) && Good(jack) ==>
                (r.Ok? <==>
                   old(LiveCount(engine.chans)) + |UuidsOf(conf.channels) - old(channels.Keys)| <= engine.maxChans - 1)
      ensures r.Ok? ==>
                && Applied(old(channels), channels, UuidsOf(conf.channels))
                && Configured(old(channels), channels, conf.channels, |conf.channels|)
                && Listed(touched) == Listed(given) + UuidsOf(conf.channels)
      ensures (r.Ok? || Good(jack)) && Stray(old(engine.View()), old(channels), given, u) ==>
                Stray(engine.View(), channels, touched, u)
    {
      hide Owns, Stray, LiveCount, Lookup, NewAmong, UuidsOf, Midway, Sane, Applied, Listed, Configured;
      touched := given;
      ghost var before, live := channels, LiveCount(engine.chans);
      AtStart(conf, given);
      var i := 0;
      while i < |conf.channels|
        invariant i <= |conf.channels| && Midway(conf, i, before, live, given, touched)
        invariant old(Owner()) && Good(jack) ==> Owner()
        invariant Stray(old(engine.View()), old(channels), given, u) ==> Stray(engine.View(), channels, touched, u)
      {
        r, touched := ApplyNext(conf, i, jack, given, touched, before, live, u);
        if r.Err? {
          return;
        }
        i := i + 1;
      }
      AtEnd(conf, before, live, given, touched);
      r := Ok(());
    }

    /** A new configuration. From an orderly state and with JACK willing, the mixer still owns the live
        slots afterwards exactly when no configured name clashes with another channel's; then it
        succeeds exactly when the new channels fit beside the old ones. */
    method ProcessConfig(conf: MixerConf, jack: Jack) returns (r: Result<(), EngineError>)
      requires Sane()
      modifies this, engine, engine.control
      ensures Sane()
      ensures old(Owner()) && Good(jack) ==> (Owner() <==> !Clash(old(channels), conf))
      ensures old(Owner()) && Good(jack) && !Clash(old(channels), conf) ==>
                (r.Ok? <==>
                   old(LiveCount(engine.chans)) + |UuidsOf(conf.channels) - old(channels.Keys)| <= engine.maxChans - 1)
      ensures r.Ok? && !Clash(old(channels), conf) ==>
                && channels.Keys == UuidsOf(conf.channels)
                && defs == Retained(conf.defs, channels.Keys)
                && (forall v :: v in channels && v in old(channels) ==>
                      channels[v] == old(channels)[v].(name := channels[v].name))
                && (forall k :: 0 <= k < |conf.channels| ==>
                      var ch := conf.channels[k];
                      && ch.uuid in channels
                      && (LastAt(conf.channels, |conf.channels|, k) ==> channels[ch.uuid].name == ch.name)
                      && (ch.uuid !in old(channels) && FirstAt(conf.channels, k) ==>
                          channels[ch.uuid].patch == ch.patch))
    {
      hide Owns, LiveCount, Lookup, Good, Stray, Clash, UuidsOf, Retained, LastAt, FirstAt;
      var res, dropped := DropClashing(conf, jack);
      if res.Err? {
        return res;
      }
      ghost var u: nat := 0;
      if Clash(channels, conf) {
        u :| Stray(engine.View(), channels, dropped, u);
      }
      r := Settle(conf, jack, dropped, u);
    }

    /** Applies the configured channels, then drops the channels nobody asked for. */
    method Settle(conf: MixerConf, jack: Jack, dropped: seq<nat>, ghost u: nat) returns (r: Result<(), EngineError>)
      requires Sane()
      modifies this, engine, engine.control
      ensures Sane()
      ensures old(Owner()) && Good(jack) ==> Owner()
      ensures old(Owner()) && Good(jack) ==>
                (r.Ok? <==>
                   old(LiveCount(engine.chans)) + |UuidsOf(conf.channels) - old(channels.Keys)| <= engine.maxChans - 1)
      ensures (r.Ok? || Good(jack)) && Stray(old(engine.View()), old(channels), dropped, u) ==> !Owner()
      ensures r.Ok? && dropped == [] ==>
                && channels.Keys == UuidsOf(conf.channels)
                && defs == Retained(conf.defs, channels.Keys)
                && (forall v :: v in channels && v in old(channels) ==>
                      channels[v] == old(channels)[v].(name := channels[v].name))
                && (forall k :: 0 <= k < |conf.channels| ==>
                      var ch := conf.channels[k];
                      && ch.uuid in channels
                      && (LastAt(conf.channels, |conf.channels|, k) ==> channels[ch.uuid].name == ch.name)
                      && (ch.uuid !in old(channels) && FirstAt(conf.channels, k) ==>
                          channels[ch.uuid].patch == ch.patch))
    {
      hide Owns, LiveCount, Lookup, Good, Stray, UuidsOf, Retained, LastAt, FirstAt;
      var res, touched := ApplyChannels(conf, jack, dropped, u);
      NoStrayOwned(touched, u);
      if res.Err? {
        return res;
      }
      var keep := Listed(touched);
      defs := Retained(conf.defs, keep);
      r := RemoveUntouched(touched, jack, u);
      NoStrayOwned(touched, u);
      if r.Err? {
        return;
      }
      NoStrayKept(touched, u);
      assert dropped == [] ==> keep == UuidsOf(conf.channels);
      AllListed(conf.channels);
      channels := Kept(channels, keep);
    }

    lemma NoStrayOwned(touched: seq<nat>, u: nat)
      ensures Stray(engine.View(), channels, touched, u) ==> !Owner()
    {
    }

    lemma NoStrayKept(touched: seq<nat>, u: nat)
      ensures Stray(engine.View(), channels, touched, u) ==> !Owns(engine.View(), Kept(channels, Listed(touched)))
    {
      if Stray(engine.View(), channels, touched, u) {
        StrayStays(engine.View(), channels, touched, u);
        StrayNotOwned(engine.View(), Kept(channels, Listed(touched)), touched, u);
      }
    }
  }
}
