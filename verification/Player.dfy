/** One mono stream on the audio thread: what a callback does to it, where its samples go, and how
    it keeps to the clock. */
module Player {
  import opened Containers
  import opened Param

  const ONE_SECOND_IN_NANOSECONDS: nat := 1_000_000_000

  datatype Message =
    | PlayerAdded(uuid: nat)
    | PlayerRejected(uuid: nat)
    | PlayerRemoved(uuid: nat)
    | PlayerInvalidOutpatch(uuid: nat)
    | PlayerBufHalf(uuid: nat)
    | PlayerBufEmpty(uuid: nat)
    | Xrun

  datatype PlayerState = PlayerState(
    buf: seq<real>, capacity: nat, startTime: nat, position: nat,
    active: bool, alive: bool, killWhenEmpty: bool, outputPatch: nat,
    volume: Parameter, master: Parameter, uuid: nat, halfSent: bool, emptySent: bool)

  /** What the output patch of a player leads to in this callback. */
  datatype SlotView = NoChannel | NoPortBuffer | Open

  datatype Exit = Dead | Idle | Waiting | Underrun | BadPatch | Unrouted | Rendered

  datatype Outcome = Outcome(player: PlayerState, exit: Exit, skipped: seq<real>, played: seq<real>, sent: seq<Message>)

  /** Samples that should have been delivered by `time`; the product wraps at 64 bits. */
  function ClockPosition(time: nat, startTime: nat, rate: nat): nat
    requires startTime <= time
  {
    (time - startTime) * rate % U64 / ONE_SECOND_IN_NANOSECONDS
  }

  function SkipCount(p: PlayerState, delta: nat): nat {
    if p.position >= delta then 0
    else if delta - p.position <= |p.buf| then delta - p.position
    else |p.buf|
  }

  /** `half_sent` is a latch: one message per descent below half of the ring. */
  function HalfLatch(p: PlayerState): (PlayerState, seq<Message>) {
    if |p.buf| * 2 < p.capacity && !p.halfSent then (p.(halfSent := true), [PlayerBufHalf(p.uuid)])
    else if |p.buf| * 2 >= p.capacity && p.halfSent then (p.(halfSent := false), [])
    else (p, [])
  }

  function RunDry(p: PlayerState): (PlayerState, seq<Message>) {
    if p.killWhenEmpty then (p.(alive := false), [])
    else if !p.emptySent then (p.(emptySent := true), [PlayerBufEmpty(p.uuid)])
    else (p, [])
  }

  lemma LatchSwitches(q: PlayerState)
    ensures
      var half := |q.buf| * 2 < q.capacity;
      HalfLatch(q) == (q.(halfSent := half), if half && !q.halfSent then [PlayerBufHalf(q.uuid)] else [])
  {
  }

  lemma DrySwitches(q: PlayerState)
    ensures
      RunDry(q) == (q.(alive := q.alive && !q.killWhenEmpty, emptySent := q.emptySent || !q.killWhenEmpty),
                    if q.killWhenEmpty || q.emptySent then [] else [PlayerBufEmpty(q.uuid)])
  {
  }

  /** How far a started player gets before it would render: `exit` is Rendered when nothing stops it. */
  datatype Readiness = Readiness(player: PlayerState, exit: Exit, pos: nat, sent: seq<Message>)

  function Prepared(p: PlayerState, delta: nat, nframes: nat, routed: bool): Readiness {
    var k := SkipCount(p, delta);
    var pos := p.position + k;
    var q := p.(buf := p.buf[k..]);
    if pos < delta || |q.buf| < nframes then
      Readiness(RunDry(q).0.(position := pos), Underrun, pos, RunDry(q).1)
    else if !routed then
      Readiness(HalfLatch(q).0.(active := false), BadPatch, pos, HalfLatch(q).1 + [PlayerInvalidOutpatch(p.uuid)])
    else
      Readiness(HalfLatch(q).0, Rendered, pos, HalfLatch(q).1)
  }

  /** A started player that should have delivered `delta` samples by now. */
  function Deliver(p: PlayerState, delta: nat, nframes: nat, slot: SlotView): Outcome {
    var r := Prepared(p, delta, nframes, !slot.NoChannel?);
    var skipped := p.buf[..SkipCount(p, delta)];
    if !r.exit.Rendered? then Outcome(r.player, r.exit, skipped, [], r.sent)
    else if slot.NoPortBuffer? then Outcome(r.player.(position := r.pos), Unrouted, skipped, [], r.sent)
    else
      Outcome(r.player.(position := r.pos + nframes, buf := r.player.buf[nframes..]), Rendered, skipped,
              r.player.buf[..nframes], r.sent)
  }

  /** One player's share of a callback. */
  function Step(p: PlayerState, time: nat, rate: nat, nframes: nat, slot: SlotView): Outcome {
    if !p.alive then Outcome(p, Dead, [], [], [])
    else if !p.active then Outcome(p, Idle, [], [], [])
    else if p.startTime > time then Outcome(p.(position := 0), Waiting, [], [], [])
    else Deliver(p, ClockPosition(time, p.startTime, rate), nframes, slot)
  }

  // ---- which exit, and what is left and said there ----

  /** How many samples a started player is behind the clock. */
  function Due(p: PlayerState, now: nat, rate: nat): nat
    requires p.startTime <= now
  {
    var clock := ClockPosition(now, p.startTime, rate);
    if p.position < clock then clock - p.position else 0
  }

  predicate Running(p: PlayerState, now: nat) {
    p.alive && p.active && p.startTime <= now
  }

  /** Each exit is taken on exactly one condition of the state before the callback: a player renders if and
      only if it is running, holds what it is behind by and a buffer more, and its port is there. */
  lemma ExitIff(p: PlayerState, now: nat, rate: nat, nframes: nat, slot: SlotView)
    ensures
      var exit := Step(p, now, rate, nframes, slot).exit;
      && (exit.Dead? <==> !p.alive)
      && (exit.Idle? <==> p.alive && !p.active)
      && (exit.Waiting? <==> p.alive && p.active && p.startTime > now)
      && (exit.Underrun? <==> Running(p, now) && Due(p, now, rate) + nframes > |p.buf|)
      && (exit.BadPatch? <==> Running(p, now) && Due(p, now, rate) + nframes <= |p.buf| && slot.NoChannel?)
      && (exit.Unrouted? <==> Running(p, now) && Due(p, now, rate) + nframes <= |p.buf| && slot.NoPortBuffer?)
      && (exit.Rendered? <==> Running(p, now) && Due(p, now, rate) + nframes <= |p.buf| && slot.Open?)
  {
    hide ClockPosition;
  }

  lemma PreparedSwitches(p: PlayerState, delta: nat, nframes: nat, routed: bool)
    ensures
      var due, r := if p.position < delta then delta - p.position else 0, Prepared(p, delta, nframes, routed);
      var q := r.player;
      && q == p.(buf := q.buf, position := q.position, active := q.active, alive := q.alive,
                 halfSent := q.halfSent, emptySent := q.emptySent)
      && (r.exit.Underrun? <==> due + nframes > |p.buf|) && (r.exit.Rendered? ==> routed)
      && (if due + nframes > |p.buf| then
            && q.active == p.active && q.halfSent == p.halfSent
            && q.alive == (p.alive && !p.killWhenEmpty) && q.emptySent == (p.emptySent || !p.killWhenEmpty)
          else
            && q.alive == p.alive && q.emptySent == p.emptySent
            && q.active == (p.active && routed)
            && (q.halfSent <==> (|p.buf| - due) * 2 < p.capacity))
  {
    hide HalfLatch, RunDry;
    var q := p.(buf := p.buf[SkipCount(p, delta)..]);
    LatchSwitches(q);
    DrySwitches(q);
  }

  /** Only the ring, the position and the switches change. A player without enough samples dies if it was
      to and counts as announced empty otherwise; one with enough has the half latch of what is left, and is
      switched off when its patch leads nowhere. */
  lemma StepSwitches(p: PlayerState, now: nat, rate: nat, nframes: nat, slot: SlotView)
    ensures
      var q := Step(p, now, rate, nframes, slot).player;
      && q == p.(buf := q.buf, position := q.position, active := q.active, alive := q.alive,
                 halfSent := q.halfSent, emptySent := q.emptySent)
      && (if !Running(p, now) then
            q == p.(position := if p.alive && p.active then 0 else p.position)
          else if Due(p, now, rate) + nframes > |p.buf| then
            && q.active && q.halfSent == p.halfSent
            && q.alive == !p.killWhenEmpty && q.emptySent == (p.emptySent || !p.killWhenEmpty)
          else
            && q.alive && q.emptySent == p.emptySent
            && (q.active <==> !slot.NoChannel?)
            && (q.halfSent <==> (|p.buf| - Due(p, now, rate)) * 2 < p.capacity))
  {
    hide ClockPosition, Prepared;
    if Running(p, now) {
      PreparedSwitches(p, ClockPosition(now, p.startTime, rate), nframes, !slot.NoChannel?);
    }
  }

  /** What is sent: empty once in the life of a stream, half empty when the latch rises, and a patch that
      leads nowhere. */
  lemma StepSends(p: PlayerState, now: nat, rate: nat, nframes: nat, slot: SlotView)
    ensures
      var o := Step(p, now, rate, nframes, slot);
      o.sent ==
        if !Running(p, now) then []
        else if Due(p, now, rate) + nframes > |p.buf| then
          if p.killWhenEmpty || p.emptySent then [] else [PlayerBufEmpty(p.uuid)]
        else
          (if o.player.halfSent && !p.halfSent then [PlayerBufHalf(p.uuid)] else [])
          + (if slot.NoChannel? then [PlayerInvalidOutpatch(p.uuid)] else [])
  {
    hide ClockPosition;
  }

  // ---- the clock ----

  function IdealPosition(time: nat, startTime: nat, rate: nat): nat {
    if time < startTime then 0 else (time - startTime) * rate / ONE_SECOND_IN_NANOSECONDS
  }

  /** The 64-bit clock position is the exact one if and only if the product fits. */
  lemma ClockExact(time: nat, startTime: nat, rate: nat)
    requires startTime <= time
    ensures ClockPosition(time, startTime, rate) == IdealPosition(time, startTime, rate)
            <==> (time - startTime) * rate < U64
  {
    var product := (time - startTime) * rate;
    if product >= U64 {
      var k := product / U64;
      assert product == k * U64 + product % U64;
      assert k >= 1;
      assert product >= product % U64 + U64;
      DivisionGrows(product % U64, product, U64);
    }
  }

  lemma DivisionGrows(a: nat, b: nat, gap: nat)
    requires a + gap <= b
    ensures a / ONE_SECOND_IN_NANOSECONDS + gap / ONE_SECOND_IN_NANOSECONDS <= b / ONE_SECOND_IN_NANOSECONDS
  {
  }

  lemma PacedClock(t1: nat, t2: nat, startTime: nat, rate: nat, nframes: nat)
    requires startTime <= t1 <= t2
    requires (t2 - t1) * rate >= nframes * ONE_SECOND_IN_NANOSECONDS
    ensures IdealPosition(t2, startTime, rate) >= IdealPosition(t1, startTime, rate) + nframes
  {
    var a, b := (t1 - startTime) * rate, (t2 - startTime) * rate;
    assert b == a + (t2 - t1) * rate;
    DivisionGrows(a, b, nframes * ONE_SECOND_IN_NANOSECONDS);
  }

  // ---- where the samples of one stream go ----

  /** A player together with everything ever pushed to it and everything that ever left its ring.
      `base` is how much had left when the position was last set back to 0. */
  datatype Track = Track(player: PlayerState, pushed: seq<real>, consumed: seq<real>, base: nat)

  /** What the sender, the producer and the audio thread can do to a player. */
  datatype Event =
    | PushSamples(samples: seq<real>)
    | SetStartTime(time: nat)
    | SetActive(active: bool)
    | SetOutputPatch(patch: nat)
    | SetKillWhenEmpty(val: bool)
    | SetVolume(volume: Parameter)
    | SetMaster(master: Parameter)
    | ResetPosition(now: nat)
    | DropSender
    | AudioCallback(now: nat, nframes: nat, slot: SlotView)

  function Accepted(p: PlayerState, samples: seq<real>): seq<real> {
    if |p.buf| + |samples| <= p.capacity then samples
    else if |p.buf| >= p.capacity then []
    else samples[..p.capacity - |p.buf|]
  }

  /** The ring takes samples in order until it is full. */
  lemma AcceptedFills(p: PlayerState, samples: seq<real>)
    requires |p.buf| <= p.capacity
    ensures
      var free := p.capacity - |p.buf|;
      Accepted(p, samples) == samples[..if |samples| <= free then |samples| else free]
  {
  }

  function Advance(tr: Track, rate: nat, ev: Event): Track {
    var p := tr.player;
    match ev
    case PushSamples(samples) =>
      tr.(player := p.(buf := p.buf + Accepted(p, samples)), pushed := tr.pushed + Accepted(p, samples))
    case SetStartTime(time) => tr.(player := p.(startTime := time))
    case SetActive(active) => tr.(player := p.(active := active))
    case SetOutputPatch(patch) => tr.(player := p.(outputPatch := patch))
    case SetKillWhenEmpty(val) => tr.(player := p.(killWhenEmpty := val))
    case SetVolume(volume) => tr.(player := p.(volume := volume))
    case SetMaster(master) => tr.(player := p.(master := master))
    case ResetPosition(now) => tr.(player := p.(startTime := now, position := 0), base := |tr.consumed|)
    case DropSender => tr.(player := p.(active := false, alive := false))
    case AudioCallback(now, nframes, slot) =>
      var o := Step(p, now, rate, nframes, slot);
      tr.(player := o.player,
          consumed := tr.consumed + o.skipped + o.played,
          base := if o.exit.Waiting? then |tr.consumed| else tr.base)
  }

  function RunEvents(tr: Track, rate: nat, evs: seq<Event>): Track {
    if evs == [] then tr
    else Advance(RunEvents(tr, rate, evs[..|evs| - 1]), rate, evs[|evs| - 1])
  }

  ghost predicate Conserved(tr: Track) {
    && tr.pushed == tr.consumed + tr.player.buf
    && tr.base + tr.player.position <= |tr.consumed|
  }

  /** Samples that left the ring since the last reset without `position` counting them. */
  function Drift(tr: Track): int {
    |tr.consumed| - tr.base - tr.player.position
  }

  /** A callback before the start time sets the position back. */
  predicate Resets(tr: Track, ev: Event) {
    || ev.ResetPosition?
    || (ev.AudioCallback? && tr.player.alive && tr.player.active && tr.player.startTime > ev.now)
  }

  /** A late callback that finds no channel behind the patch, though there is enough to play. */
  predicate LosesCount(tr: Track, rate: nat, ev: Event) {
    var p := tr.player;
    && ev.AudioCallback? && ev.slot.NoChannel?
    && p.alive && p.active && p.startTime <= ev.now
    && var clock := ClockPosition(ev.now, p.startTime, rate);
    p.position < clock && clock - p.position + ev.nframes <= |p.buf|
  }

  /** By how much an event makes the count wrong. */
  function CountLost(tr: Track, rate: nat, ev: Event): nat {
    if LosesCount(tr, rate, ev) then ClockPosition(ev.now, tr.player.startTime, rate) - tr.player.position else 0
  }

  /** The invalid-outpatch exit leaves after skipping, without storing the advanced position. */
  lemma LosesCountExit(tr: Track, rate: nat, ev: Event)
    requires ev.AudioCallback?
    ensures
      var o := Step(tr.player, ev.now, rate, ev.nframes, ev.slot);
      && (o.exit.Waiting? <==> Resets(tr, ev))
      && (o.exit.BadPatch? && o.skipped != [] <==> LosesCount(tr, rate, ev))
      && (LosesCount(tr, rate, ev) ==> |o.skipped| == CountLost(tr, rate, ev))
  {
    hide ClockPosition;
  }

  /** What leaves the ring is a prefix of it, and `position` counts it on every exit but the
      invalid-outpatch one. */
  ghost predicate Accounts(p: PlayerState, o: Outcome) {
    && p.buf == o.skipped + o.played + o.player.buf
    && o.player.startTime == p.startTime
    && (o.exit.Waiting? ==> o.player.position == 0 && o.skipped == o.played == [])
    && (o.exit.BadPatch? ==> o.player.position == p.position && o.played == [])
    && (!o.exit.Waiting? && !o.exit.BadPatch? ==> o.player.position == p.position + |o.skipped| + |o.played|)
  }

  lemma DeliverAccounts(p: PlayerState, delta: nat, nframes: nat, slot: SlotView)
    ensures Accounts(p, Deliver(p, delta, nframes, slot))
  {
    hide HalfLatch, RunDry;
    var o := Deliver(p, delta, nframes, slot);
    var k := SkipCount(p, delta);
    LatchSwitches(p.(buf := p.buf[k..]));
    DrySwitches(p.(buf := p.buf[k..]));
    if o.exit.Rendered? {
      assert o.skipped == p.buf[..k] && o.played == p.buf[k..][..nframes] && o.player.buf == p.buf[k..][nframes..];
    } else {
      assert o.skipped == p.buf[..k] && o.played == [] && o.player.buf == p.buf[k..];
    }
  }

  lemma StepAccounts(p: PlayerState, now: nat, rate: nat, nframes: nat, slot: SlotView)
    ensures Accounts(p, Step(p, now, rate, nframes, slot))
  {
    if p.alive && p.active && p.startTime <= now {
      DeliverAccounts(p, ClockPosition(now, p.startTime, rate), nframes, slot);
    }
  }

  lemma Regroup(a: seq<real>, b: seq<real>, c: seq<real>, d: seq<real>)
    ensures a + (b + c + d) == a + b + c + d
  {
  }

  lemma CallbackConserves(tr: Track, rate: nat, ev: Event)
    requires Conserved(tr) && ev.AudioCallback?
    ensures Conserved(Advance(tr, rate, ev)) && tr.consumed <= Advance(tr, rate, ev).consumed
    ensures Drift(Advance(tr, rate, ev)) == if Resets(tr, ev) then 0 else Drift(tr) + CountLost(tr, rate, ev)
  {
    var o := Step(tr.player, ev.now, rate, ev.nframes, ev.slot);
    StepAccounts(tr.player, ev.now, rate, ev.nframes, ev.slot);
    Regroup(tr.consumed, o.skipped, o.played, o.player.buf);
    LosesCountExit(tr, rate, ev);
    hide Step, LosesCount, Resets;
  }

  lemma EventConserves(tr: Track, rate: nat, ev: Event)
    requires Conserved(tr)
    ensures Conserved(Advance(tr, rate, ev))
    ensures tr.consumed <= Advance(tr, rate, ev).consumed && tr.pushed <= Advance(tr, rate, ev).pushed
    ensures Drift(Advance(tr, rate, ev)) == if Resets(tr, ev) then 0 else Drift(tr) + CountLost(tr, rate, ev)
  {
    if ev.PushSamples? {
      var more := Accepted(tr.player, ev.samples);
      assert tr.consumed + tr.player.buf + more == tr.consumed + (tr.player.buf + more);
    } else if ev.AudioCallback? {
      CallbackConserves(tr, rate, ev);
    }
  }

  /** Over any run, samples leave the ring in the order pushed, each exactly once. */
  lemma {:induction false} Conservation(tr: Track, rate: nat, evs: seq<Event>)
    requires Conserved(tr)
    ensures Conserved(RunEvents(tr, rate, evs))
    ensures tr.consumed <= RunEvents(tr, rate, evs).consumed && tr.pushed <= RunEvents(tr, rate, evs).pushed
  {
    if evs != [] {
      var before := evs[..|evs| - 1];
      Conservation(tr, rate, before);
      EventConserves(RunEvents(tr, rate, before), rate, evs[|evs| - 1]);
    }
  }

  /** Everything sent during a run. */
  function SentIn(tr: Track, rate: nat, evs: seq<Event>): seq<Message> {
    if evs == [] then []
    else
      var before, last := evs[..|evs| - 1], evs[|evs| - 1];
      SentIn(tr, rate, before)
      + if last.AudioCallback?
        then Step(RunEvents(tr, rate, before).player, last.now, rate, last.nframes, last.slot).sent
        else []
  }

  lemma EventAnnounces(tr: Track, rate: nat, ev: Event)
    ensures
      var u, q := tr.player.uuid, Advance(tr, rate, ev).player;
      var sent := if ev.AudioCallback? then Step(tr.player, ev.now, rate, ev.nframes, ev.slot).sent else [];
      && q.uuid == u && (tr.player.emptySent ==> q.emptySent)
      && multiset(sent)[PlayerBufEmpty(u)] == if q.emptySent && !tr.player.emptySent then 1 else 0
  {
    if ev.AudioCallback? {
      StepSwitches(tr.player, ev.now, rate, ev.nframes, ev.slot);
      StepSends(tr.player, ev.now, rate, ev.nframes, ev.slot);
      hide Step, Due;
    }
  }

  /** A stream is announced empty at most once in its life, however often it is refilled and runs dry again. */
  lemma {:induction false} EmptyAnnouncedOnce(tr: Track, rate: nat, evs: seq<Event>)
    ensures
      var u, after := tr.player.uuid, RunEvents(tr, rate, evs).player;
      && after.uuid == u && (tr.player.emptySent ==> after.emptySent)
      && multiset(SentIn(tr, rate, evs))[PlayerBufEmpty(u)] == if after.emptySent && !tr.player.emptySent then 1 else 0
  {
    hide Advance, Step;
    if evs != [] {
      var before, last := evs[..|evs| - 1], evs[|evs| - 1];
      EmptyAnnouncedOnce(tr, rate, before);
      EventAnnounces(RunEvents(tr, rate, before), rate, last);
    }
  }

  /** No callback since the last reset was late, unpatched and well supplied at once. */
  ghost predicate NothingLost(tr: Track, rate: nat, evs: seq<Event>) {
    if evs == [] then Drift(tr) == 0
    else
      var before := evs[..|evs| - 1];
      var last := evs[|evs| - 1];
      || Resets(RunEvents(tr, rate, before), last)
      || (NothingLost(tr, rate, before) && !LosesCount(RunEvents(tr, rate, before), rate, last))
  }

  /** `position` is the number of samples that left the ring since the last reset if and only if
      nothing was lost. */
  lemma {:induction false} PositionCountsSamples(tr: Track, rate: nat, evs: seq<Event>)
    requires Conserved(tr)
    ensures Conserved(RunEvents(tr, rate, evs))
    ensures Drift(RunEvents(tr, rate, evs)) == 0 <==> NothingLost(tr, rate, evs)
  {
    Conservation(tr, rate, evs);
    if evs != [] {
      var before := evs[..|evs| - 1];
      PositionCountsSamples(tr, rate, before);
      EventConserves(RunEvents(tr, rate, before), rate, evs[|evs| - 1]);
    }
  }

  /** The defect is real: one late callback on an unpatched player loses count of what it skipped. */
  lemma InvalidOutpatchLosesCount(tr: Track)
    requires Conserved(tr) && Drift(tr) == 0
    requires tr.player.alive && tr.player.active
    requires tr.player.startTime == 0 && tr.player.position == 0 && |tr.player.buf| >= 2
    ensures Drift(Advance(tr, 1, AudioCallback(ONE_SECOND_IN_NANOSECONDS, 1, NoChannel))) == 1
  {
    var ev := AudioCallback(ONE_SECOND_IN_NANOSECONDS, 1, NoChannel);
    assert ClockPosition(ONE_SECOND_IN_NANOSECONDS, 0, 1) == 1;
    assert LosesCount(tr, 1, ev) && !Resets(tr, ev);
    EventConserves(tr, 1, ev);
  }

  lemma RenderedStep(p: PlayerState, now: nat, rate: nat, nframes: nat, slot: SlotView)
    requires Step(p, now, rate, nframes, slot).exit.Rendered?
    ensures p.startTime <= now
    ensures
      var o, k := Step(p, now, rate, nframes, slot), SkipCount(p, ClockPosition(now, p.startTime, rate));
      && k + nframes <= |p.buf| && p.position + k >= ClockPosition(now, p.startTime, rate)
      && o.player.position == p.position + k + nframes && o.played == p.buf[k..][..nframes]
  {
    hide ClockPosition;
  }

  /** A rendering callback plays, at frame k, the sample that is k after the later of the player's
      position and the clock, and advances the position by exactly one callback. */
  lemma ExactPlacement(tr: Track, rate: nat, now: nat, nframes: nat, slot: SlotView)
    requires Conserved(tr)
    requires Step(tr.player, now, rate, nframes, slot).exit.Rendered?
    requires (now - tr.player.startTime) * rate < U64
    ensures
      var p, o := tr.player, Step(tr.player, now, rate, nframes, slot);
      var clock := IdealPosition(now, p.startTime, rate);
      var first := if p.position < clock then clock else p.position;
      && o.player.position == first + nframes
      && |o.played| == nframes
      && tr.base + Drift(tr) + first + nframes <= |tr.pushed|
      && o.played == tr.pushed[tr.base + Drift(tr) + first..][..nframes]
  {
    hide Step, IdealPosition, ClockPosition;
    var p := tr.player;
    RenderedStep(p, now, rate, nframes, slot);
    ClockExact(now, p.startTime, rate);
    var k := SkipCount(p, ClockPosition(now, p.startTime, rate));
    assert tr.pushed[|tr.consumed|..] == p.buf;
    assert tr.pushed[|tr.consumed| + k..] == p.buf[k..];
  }

  // ---- keeping to the clock over a run ----

  /** Events that leave the start time alone and only change the position by playing. */
  predicate KeepsSchedule(ev: Event) {
    !ev.SetStartTime? && !ev.ResetPosition?
  }

  /** Callbacks come at least one buffer's duration apart, ask for `nframes`, and stay in the range
      of the 64-bit clock. `last` is the time of the previous callback. */
  ghost predicate Paced(evs: seq<Event>, last: nat, startTime: nat, rate: nat, nframes: nat) {
    evs != [] ==>
      && KeepsSchedule(evs[0])
      && (evs[0].AudioCallback? ==>
            && last <= evs[0].now && evs[0].nframes == nframes
            && (evs[0].now - last) * rate >= nframes * ONE_SECOND_IN_NANOSECONDS
            && (startTime <= evs[0].now ==> (evs[0].now - startTime) * rate < U64))
      && Paced(evs[1..], if evs[0].AudioCallback? then evs[0].now else last, startTime, rate, nframes)
  }

  /** After a callback at `last` a player is at most one callback ahead of the clock. */
  predicate OnSchedule(p: PlayerState, last: nat, rate: nat, nframes: nat) {
    p.position <= if last < p.startTime then 0 else IdealPosition(last, p.startTime, rate) + nframes
  }

  /** Even without pacing, a player that renders is never behind the clock. */
  lemma NeverBehind(p: PlayerState, now: nat, rate: nat, nframes: nat, slot: SlotView)
    requires Step(p, now, rate, nframes, slot).exit.Rendered? && (now - p.startTime) * rate < U64
    ensures Step(p, now, rate, nframes, slot).player.position >= IdealPosition(now, p.startTime, rate) + nframes
  {
    ClockExact(now, p.startTime, rate);
  }

  lemma CallbackOnSchedule(p: PlayerState, last: nat, now: nat, rate: nat, nframes: nat, slot: SlotView)
    requires OnSchedule(p, last, rate, nframes)
    requires last <= now && (now - last) * rate >= nframes * ONE_SECOND_IN_NANOSECONDS
    requires p.startTime <= now ==> (now - p.startTime) * rate < U64
    ensures OnSchedule(Step(p, now, rate, nframes, slot).player, now, rate, nframes)
    ensures
      var o := Step(p, now, rate, nframes, slot);
      o.exit.Rendered? ==> o.player.position == IdealPosition(now, p.startTime, rate) + nframes
  {
    if p.startTime <= now {
      ClockExact(now, p.startTime, rate);
      if p.startTime <= last {
        PacedClock(last, now, p.startTime, rate, nframes);
      }
      assert p.position <= IdealPosition(now, p.startTime, rate);
    }
    hide IdealPosition, ClockPosition, HalfLatch, RunDry;
    var q := p.(buf := p.buf[if p.startTime <= now then SkipCount(p, ClockPosition(now, p.startTime, rate)) else 0..]);
    LatchSwitches(q);
    DrySwitches(q);
  }

  ghost predicate EveryRenderOnClock(tr: Track, evs: seq<Event>, startTime: nat, rate: nat)
    decreases |evs|
  {
    evs != [] ==>
      && (evs[0].AudioCallback? ==>
            var o := Step(tr.player, evs[0].now, rate, evs[0].nframes, evs[0].slot);
            o.exit.Rendered? ==>
              o.player.position == IdealPosition(evs[0].now, startTime, rate) + evs[0].nframes)
      && EveryRenderOnClock(Advance(tr, rate, evs[0]), evs[1..], startTime, rate)
  }

  lemma {:induction false} RunFrom(tr: Track, rate: nat, evs: seq<Event>)
    requires evs != []
    ensures RunEvents(tr, rate, evs) == RunEvents(Advance(tr, rate, evs[0]), rate, evs[1..])
    decreases |evs|
  {
    hide Advance;
    if |evs| > 1 {
      var init := evs[..|evs| - 1];
      RunFrom(tr, rate, init);
      assert evs[1..][..|evs| - 2] == init[1..] && evs[1..][|evs| - 2] == evs[|evs| - 1];
    } else {
      assert evs[..0] == [] && evs[1..] == [];
    }
  }

  /** The time of the last callback of a run that follows one at `last`. */
  function LastCallback(evs: seq<Event>, last: nat): nat {
    if evs == [] then last
    else LastCallback(evs[1..], if evs[0].AudioCallback? then evs[0].now else last)
  }

  /** With a fixed start time and paced callbacks every rendering callback of the run ends exactly
      one buffer past the clock, however many underruns, pauses or refills came before; the run ends on
      schedule. */
  lemma {:induction false} SelfResynchronises(tr: Track, evs: seq<Event>, last: nat, rate: nat, nframes: nat)
    requires OnSchedule(tr.player, last, rate, nframes)
    requires Paced(evs, last, tr.player.startTime, rate, nframes)
    ensures EveryRenderOnClock(tr, evs, tr.player.startTime, rate)
    ensures RunEvents(tr, rate, evs).player.startTime == tr.player.startTime
    ensures OnSchedule(RunEvents(tr, rate, evs).player, LastCallback(evs, last), rate, nframes)
    decreases |evs|
  {
    hide RunEvents, OnSchedule, Step;
    if evs == [] {
      assert RunEvents(tr, rate, evs) == tr by { Nothing(tr, rate); }
    } else {
      var ev := evs[0];
      RunFrom(tr, rate, evs);
      EventOnSchedule(tr, ev, last, rate, nframes);
      SelfResynchronises(Advance(tr, rate, ev), evs[1..], if ev.AudioCallback? then ev.now else last, rate, nframes);
    }
  }

  lemma Nothing(tr: Track, rate: nat)
    ensures RunEvents(tr, rate, []) == tr
  {
  }

  lemma EventOnSchedule(tr: Track, ev: Event, last: nat, rate: nat, nframes: nat)
    requires OnSchedule(tr.player, last, rate, nframes) && Paced([ev], last, tr.player.startTime, rate, nframes)
    ensures
      var next := Advance(tr, rate, ev);
      && next.player.startTime == tr.player.startTime
      && OnSchedule(next.player, if ev.AudioCallback? then ev.now else last, rate, nframes)
      && EveryRenderOnClock(tr, [ev], tr.player.startTime, rate)
  {
    if ev.AudioCallback? {
      StepAccounts(tr.player, ev.now, rate, ev.nframes, ev.slot);
      CallbackOnSchedule(tr.player, last, ev.now, rate, nframes, ev.slot);
      hide Step;
    }
  }

  /** A paced run of a player, followed by a rendering callback at `now` that keeps the pace. */
  ghost predicate RendersAfter(tr: Track, evs: seq<Event>, last: nat, rate: nat, nframes: nat, now: nat,
                               slot: SlotView)
  {
    && Conserved(tr) && OnSchedule(tr.player, last, rate, nframes)
    && Paced(evs, last, tr.player.startTime, rate, nframes)
    && tr.player.startTime <= now && (now - tr.player.startTime) * rate < U64
    && LastCallback(evs, last) <= now && (now - LastCallback(evs, last)) * rate >= nframes * ONE_SECOND_IN_NANOSECONDS
    && Step(RunEvents(tr, rate, evs).player, now, rate, nframes, slot).exit.Rendered?
  }

  lemma RendersOnClock(tr: Track, evs: seq<Event>, last: nat, rate: nat, nframes: nat, now: nat, slot: SlotView)
    requires RendersAfter(tr, evs, last, rate, nframes, now, slot)
    ensures
      var r := RunEvents(tr, rate, evs);
      var o, clock := Step(r.player, now, rate, nframes, slot), IdealPosition(now, tr.player.startTime, rate);
      && o.player.position == clock + nframes
      && 0 <= r.base + Drift(r) && r.base + Drift(r) + clock + nframes <= |r.pushed|
      && o.played == r.pushed[r.base + Drift(r) + clock..][..nframes]
  {
    Conservation(tr, rate, evs);
    SelfResynchronises(tr, evs, last, rate, nframes);
    var r := RunEvents(tr, rate, evs);
    CallbackOnSchedule(r.player, LastCallback(evs, last), now, rate, nframes, slot);
    ExactPlacement(r, rate, now, nframes, slot);
    hide RunEvents, Step;
  }

  /** Two players with the same start time that have each been through a paced run of their own and
      both render in a callback are aligned: each plays the samples that the clock asks for, counted
      from its own last reset. */
  lemma SharedStartAligned(a: Track, evsA: seq<Event>, lastA: nat, slotA: SlotView,
                           b: Track, evsB: seq<Event>, lastB: nat, slotB: SlotView, now: nat, rate: nat, nframes: nat)
    requires a.player.startTime == b.player.startTime
    requires RendersAfter(a, evsA, lastA, rate, nframes, now, slotA)
    requires RendersAfter(b, evsB, lastB, rate, nframes, now, slotB)
    ensures
      var ra, rb := RunEvents(a, rate, evsA), RunEvents(b, rate, evsB);
      var oa, ob := Step(ra.player, now, rate, nframes, slotA), Step(rb.player, now, rate, nframes, slotB);
      var clock := IdealPosition(now, a.player.startTime, rate);
      && oa.player.position == ob.player.position == clock + nframes
      && 0 <= ra.base + Drift(ra) && ra.base + Drift(ra) + clock + nframes <= |ra.pushed|
      && 0 <= rb.base + Drift(rb) && rb.base + Drift(rb) + clock + nframes <= |rb.pushed|
      && oa.played == ra.pushed[ra.base + Drift(ra) + clock..][..nframes]
      && ob.played == rb.pushed[rb.base + Drift(rb) + clock..][..nframes]
  {
    RendersOnClock(a, evsA, lastA, rate, nframes, now, slotA);
    RendersOnClock(b, evsB, lastB, rate, nframes, now, slotB);
    hide Step, RunEvents;
  }
}
