/** The hole-reusing channel table that `EngineContext` (main thread) and `DeviceContext`
    (audio thread) each keep a copy of. */
module ChannelTable {
  import opened Containers

  datatype Table<+T> = Table(chans: seq<Option<T>>, holes: seq<nat>)

  /** What a slot number means: out of range and emptied slots alike hold nothing. */
  function Lookup<T>(t: Table<T>, slot: nat): Option<T> {
    if slot < |t.chans| then t.chans[slot] else None
  }

  function LiveCount<T>(chans: seq<Option<T>>): nat {
    if chans == [] then 0
    else LiveCount(chans[..|chans| - 1]) + (if chans[|chans| - 1].Some? then 1 else 0)
  }

  /** The test `new_channel` makes before it adds a channel. */
  predicate Full<T>(t: Table<T>, max: nat) {
    |t.chans| - |t.holes| == max - 1
  }

  ghost predicate Valid<T>(t: Table<T>, max: nat) {
    && |t.chans| <= max - 1
    && NoDup(t.holes)
    && (forall i: nat :: i in t.holes <==> i < |t.chans| && t.chans[i].None?)
  }

  /** A hole that is reused must be a slot of the table, or indexing panics. */
  predicate HeadHoleExists<T>(t: Table<T>) {
    t.holes != [] ==> t.holes[0] < |t.chans|
  }

  lemma ValidHeadHole<T>(t: Table<T>, max: nat)
    requires Valid(t, max)
    ensures HeadHoleExists(t)
  {
    assert t.holes != [] ==> t.holes[0] in t.holes;
  }

  /** The slot the next channel will get. */
  function NextSlot<T>(t: Table<T>): nat {
    if t.holes != [] then t.holes[0] else |t.chans|
  }

  function Add<T>(t: Table<T>, max: nat, x: T): Table<T>
    requires HeadHoleExists(t)
  {
    if t.holes != [] then Table(t.chans[t.holes[0] := Some(x)], t.holes[1..])
    else Table(Push(t.chans, max, Some(x)), t.holes)
  }

  function Remove<T>(t: Table<T>, max: nat, slot: nat): Table<T> {
    Table(SwapRemove(Push(t.chans, max, None), slot), Push(t.holes, max, slot))
  }

  lemma {:induction false} LiveCountFull<T>(chans: seq<Option<T>>, empty: set<nat>)
    requires forall i: nat :: i in empty <==> i < |chans| && chans[i].None?
    ensures LiveCount(chans) == |chans| - |empty|
  {
    if chans != [] {
      var last := |chans| - 1;
      var init := chans[..last];
      if chans[last].None? {
        LiveCountFull(init, empty - {last});
      } else {
        LiveCountFull(init, empty);
      }
    } else {
      assert empty == {};
    }
  }

  /** The subtraction in the limit test counts the live channels: a table is refused a channel
      exactly when `max - 1` channels are live. */
  lemma FullMeansLive<T>(t: Table<T>, max: nat)
    requires Valid(t, max)
    ensures |t.holes| <= |t.chans|
    ensures LiveCount(t.chans) == |t.chans| - |t.holes| <= max - 1
    ensures Full(t, max) <==> LiveCount(t.chans) == max - 1
  {
    var empty := set i | i in t.holes;
    NoDupCardinality(t.holes);
    LiveCountFull(t.chans, empty);
  }

  /** A channel added below the limit always fits, takes an empty slot and moves nothing. */
  lemma AddKeepsTable<T>(t: Table<T>, max: nat, x: T)
    requires Valid(t, max) && !Full(t, max)
    ensures HeadHoleExists(t) && Valid(Add(t, max, x), max)
    ensures Lookup(t, NextSlot(t)) == None
    ensures forall i: nat :: Lookup(Add(t, max, x), i) == if i == NextSlot(t) then Some(x) else Lookup(t, i)
  {
    var t' := Add(t, max, x);
    if t.holes != [] {
      var ix := t.holes[0];
      assert ix in t.holes;
      forall i: nat ensures i in t'.holes <==> i < |t'.chans| && t'.chans[i].None? {
        if i in t'.holes {
          assert i in t.holes;
        } else if i in t.holes {
          assert i == ix;
        }
      }
    }
  }

  /** Removing a live channel empties its slot and moves nothing: the temporary `push(None)` and
      the hole always fit. */
  lemma RemoveKeepsTable<T>(t: Table<T>, max: nat, slot: nat)
    requires Valid(t, max) && Lookup(t, slot).Some?
    ensures |t.chans| < max && |t.holes| < max
    ensures Valid(Remove(t, max, slot), max)
    ensures forall i: nat :: Lookup(Remove(t, max, slot), i) == if i == slot then None else Lookup(t, i)
  {
    FullMeansLive(t, max);
    var t' := Remove(t, max, slot);
    assert t'.chans == t.chans[slot := None];
    assert t'.holes == t.holes + [slot];
  }

  // ---- any sequence of operations ----

  datatype Op<+T> = AddOp(item: T) | RemoveOp(slot: nat)

  /** `new_channel` and `remove_channel` refuse what would break the table. */
  ghost predicate Accepted<T>(t: Table<T>, max: nat, op: Op<T>) {
    match op
    case AddOp(_) => !Full(t, max)
    case RemoveOp(slot) => Lookup(t, slot).Some?
  }

  ghost function Apply<T>(t: Table<T>, max: nat, op: Op<T>): Table<T>
    requires Valid(t, max)
  {
    ValidHeadHole(t, max);
    match op
    case AddOp(x) => if Accepted(t, max, op) then Add(t, max, x) else t
    case RemoveOp(slot) => if Accepted(t, max, op) then Remove(t, max, slot) else t
  }

  lemma ApplyValid<T>(t: Table<T>, max: nat, op: Op<T>)
    requires Valid(t, max)
    ensures Valid(Apply(t, max, op), max)
    ensures forall i: nat :: Lookup(t, i).Some? && op != RemoveOp(i) ==> Lookup(Apply(t, max, op), i) == Lookup(t, i)
  {
    if Accepted(t, max, op) {
      match op
      case AddOp(x) => AddKeepsTable(t, max, x);
      case RemoveOp(slot) => RemoveKeepsTable(t, max, slot);
    }
  }

  ghost predicate Runs<T>(t: Table<T>, max: nat, ops: seq<Op<T>>, t': Table<T>)
    requires Valid(t, max)
    decreases |ops|
  {
    if ops == [] then t' == t
    else Valid(Apply(t, max, ops[0]), max) && Runs(Apply(t, max, ops[0]), max, ops[1..], t')
  }

  /** No live channel's slot or port changes under any sequence of additions and of removals of
      other slots, accepted or refused; the table stays valid throughout. */
  lemma {:induction false} LiveSlotNeverMoves<T>(t: Table<T>, max: nat, ops: seq<Op<T>>, t': Table<T>, slot: nat)
    requires Valid(t, max) && Runs(t, max, ops, t')
    requires Lookup(t, slot).Some?
    requires RemoveOp(slot) !in ops
    ensures Valid(t', max) && Lookup(t', slot) == Lookup(t, slot)
    decreases |ops|
  {
    if ops != [] {
      ApplyValid(t, max, ops[0]);
      LiveSlotNeverMoves(Apply(t, max, ops[0]), max, ops[1..], t', slot);
    }
  }
}
