/** Decoded frames and the spooler: taking a frame's samples out in order, and pushing them into the
    senders' rings a part at a time without losing any. */
module Spool {
  import opened Containers

  // ---- division with a remainder ----

  lemma MulAtLeast(c: int, x: int, y: int)
    requires c >= 0 && x >= y
    ensures c * x >= c * y
  {
  }

  lemma DivMod(c: nat, q: nat, r: nat)
    requires r < c
    ensures (c * q + r) / c == q && (c * q + r) % c == r
  {
    var t := c * q + r;
    var d := t / c;
    assert t == c * d + t % c;
    if d > q {
      MulAtLeast(c, d, q + 1);
      Distribute(c, q, 1);
    } else if d < q {
      MulAtLeast(c, q, d + 1);
    }
  }

  lemma Distribute(a: nat, b: nat, c: nat)
    ensures a * (b + c) == a * b + a * c
  {
  }

  lemma Successor(c: nat, t: nat)
    requires c >= 1
    ensures t % c + 1 < c ==> (t + 1) / c == t / c && (t + 1) % c == t % c + 1
    ensures t % c + 1 == c ==> (t + 1) / c == t / c + 1 && (t + 1) % c == 0
  {
    var d, m := t / c, t % c;
    assert t == c * d + m;
    if m + 1 < c {
      DivMod(c, d, m + 1);
      assert t + 1 == c * d + (m + 1);
    } else {
      DivMod(c, d + 1, 0);
      Distribute(c, d, 1);
      assert t + 1 == c * (d + 1) + 0;
    }
  }

  lemma RowBound(c: nat, t: nat, rows: nat)
    requires c >= 1
    ensures t < c * rows <==> t / c < rows
  {
    var d := t / c;
    assert t == c * d + t % c;
    if d >= rows {
      MulAtLeast(c, d, rows);
    } else {
      MulAtLeast(c, rows, d + 1);
      Distribute(c, d, 1);
    }
  }

  // ---- a decoded frame ----

  /** Planar frames hold a plane per channel, packed frames one plane with the channels interleaved. */
  datatype Pcm = Pcm(planar: bool, chans: nat, samples: nat, planes: seq<seq<real>>)

  ghost predicate WellFormed(f: Pcm) {
    && f.chans >= 1
    && (if f.planar then |f.planes| == f.chans && forall ch :: 0 <= ch < f.chans ==> |f.planes[ch]| == f.samples
        else |f.planes| == 1 && |f.planes[0]| == f.chans * f.samples)
  }

  /** Sample k of channel ch. */
  ghost function SampleOf(f: Pcm, ch: nat, k: nat): real
    requires WellFormed(f) && ch < f.chans && k < f.samples
  {
    if f.planar then f.planes[ch][k]
    else
      assert f.chans * k + ch < f.chans * f.samples by { DivMod(f.chans, k, ch); RowBound(f.chans, f.chans * k + ch,
          f.samples); }
      f.planes[0][f.chans * k + ch]
  }

  ghost function Total(f: Pcm): nat {
    f.chans * f.samples
  }

  datatype Item = Item(chan: nat, sample: real)

  /** The t-th item: channel t mod chans, sample t div chans. */
  ghost function ItemAt(f: Pcm, t: nat): (it: Item)
    requires WellFormed(f) && t < Total(f)
    ensures it.chan < f.chans
  {
    RowBound(f.chans, t, f.samples);
    Item(t % f.chans, SampleOf(f, t % f.chans, t / f.chans))
  }

  /** Where the t-th item is stored. */
  lemma ItemLayout(f: Pcm, t: nat)
    requires WellFormed(f) && t < Total(f)
    ensures
      var it, c := ItemAt(f, t), t % f.chans;
      && it.chan == c < f.chans
      && if f.planar then t / f.chans < |f.planes[c]| && it.sample == f.planes[c][t / f.chans]
         else t < |f.planes[0]| && it.sample == f.planes[0][t]
  {
    RowBound(f.chans, t, f.samples);
    assert f.chans * (t / f.chans) + t % f.chans == t;
  }

  class Frame {
    const pcm: Pcm
    const cap: nat
    var curChan: nat
    var curIdx: nat

    constructor (pcm: Pcm)
      requires WellFormed(pcm)
      ensures Valid() && Position() == 0 && this.pcm == pcm
    {
      this.pcm := pcm;
      cap := if pcm.planar then pcm.samples else pcm.samples * pcm.chans;
      curChan, curIdx := 0, 0;
    }

    ghost predicate Valid()
      reads this
    {
      && WellFormed(pcm)
      && cap == (if pcm.planar then pcm.samples else pcm.samples * pcm.chans)
      && curIdx <= cap
      && curChan < pcm.chans
      && (if pcm.planar then curIdx == cap ==> curChan == 0 else curChan == curIdx % pcm.chans)
    }

    /** How many items have been taken. */
    ghost function Position(): nat
      reads this
    {
      if pcm.planar then pcm.chans * curIdx + curChan else curIdx
    }

    predicate Drained()
      reads this
    {
      curIdx >= cap
    }

    lemma DrainedIffAllTaken()
      requires Valid()
      ensures Position() <= Total(pcm)
      ensures Drained() <==> Position() == Total(pcm)
    {
      if pcm.planar && curIdx < cap {
        DivMod(pcm.chans, curIdx, curChan);
        RowBound(pcm.chans, Position(), pcm.samples);
      }
    }

    method Next() returns (r: Option<Item>)
      requires Valid()
      modifies this
      ensures Valid()
      ensures old(Position()) < Total(pcm) ==>
                r == Some(ItemAt(pcm, old(Position()))) && Position() == old(Position()) + 1
      ensures old(Position()) >= Total(pcm) ==> r == None && Position() == old(Position())
    {
      DrainedIffAllTaken();
      if curIdx >= cap {
        return None;
      }
      ghost var t := Position();
      RowBound(pcm.chans, t, pcm.samples);
      if pcm.planar {
        DivMod(pcm.chans, curIdx, curChan);
        r := Some(Item(curChan, pcm.planes[curChan][curIdx]));
        curChan := curChan + 1;
        if curChan >= pcm.chans {
          assert pcm.chans * (curIdx + 1) == pcm.chans * curIdx + pcm.chans;
          curChan := 0;
          curIdx := curIdx + 1;
        }
      } else {
        r := Some(Item(curChan, pcm.planes[0][curIdx]));
        Successor(pcm.chans, t);
        curIdx := curIdx + 1;
        curChan := curChan + 1;
        if curChan >= pcm.chans {
          curChan := 0;
        }
      }
    }
  }

  // ---- rings ----

  datatype Ring = Ring(capacity: nat, items: seq<real>)

  predicate Fits(r: Ring) {
    |r.items| <= r.capacity
  }

  function Free(r: Ring): nat
    requires Fits(r)
  {
    r.capacity - |r.items|
  }

  /** A full ring refuses the sample. */
  function TryPush(r: Ring, s: real): Ring {
    if |r.items| < r.capacity then r.(items := r.items + [s]) else r
  }

  ghost predicate Ready(rs: seq<Ring>, f: Pcm) {
    && WellFormed(f)
    && |rs| >= f.chans
    && forall ch :: 0 <= ch < |rs| ==> Fits(rs[ch])
  }

  /** The rings after k items of the frame from item p on. */
  ghost function Sent(rs: seq<Ring>, f: Pcm, p: nat, k: nat): (out: seq<Ring>)
    requires Ready(rs, f) && p + k <= Total(f)
    ensures |out| == |rs| && Ready(out, f)
  {
    if k == 0 then rs
    else
      var before := Sent(rs, f, p, k - 1);
      var it := ItemAt(f, p + k - 1);
      before[it.chan := TryPush(before[it.chan], it.sample)]
  }

  ghost function Taken(rs: seq<Ring>, f: Pcm, p: nat): (k: nat)
    requires Ready(rs, f) && p <= Total(f)
    ensures p + k <= Total(f)
  {
    if Free(rs[0]) * |rs| <= Total(f) - p then Free(rs[0]) * |rs| else Total(f) - p
  }

  lemma SentStep(rs: seq<Ring>, f: Pcm, p: nat, k: nat)
    requires Ready(rs, f) && p + k < Total(f)
    ensures var before, it := Sent(rs, f, p, k), ItemAt(f, p + k);
            Sent(rs, f, p, k + 1) == before[it.chan := TryPush(before[it.chan], it.sample)]
  {
  }

  /** The next item, if there is one, goes to its channel's ring. */
  method SendItem(rings: array<Ring>, frame: Frame, ghost was: seq<Ring>, ghost p: nat, ghost k: nat)
    returns (sent: bool)
    requires frame.Valid() && Ready(was, frame.pcm) && p + k <= Total(frame.pcm) && frame.Position() == p + k
    requires rings[..] == Sent(was, frame.pcm, p, k)
    modifies rings, frame
    ensures frame.Valid() && (sent <==> p + k < Total(frame.pcm))
    ensures !sent ==> frame.Position() == p + k && rings[..] == Sent(was, frame.pcm, p, k)
    ensures sent ==> frame.Position() == p + k + 1 && rings[..] == Sent(was, frame.pcm, p, k + 1)
  {
    hide Sent, ItemAt, TryPush, Total;
    var it := frame.Next();
    if it.None? {
      return false;
    }
    SentStep(was, frame.pcm, p, k);
    var Item(ch, sample) := it.value;
    rings[ch] := TryPush(rings[ch], sample);
    sent := true;
  }

  /** Fewer rings than channels would be indexed out of bounds. */
  method SendFrame(rings: array<Ring>, frame: Frame) returns (more: bool)
    requires frame.Valid() && Ready(rings[..], frame.pcm)
    modifies rings, frame
    ensures frame.Valid() && old(frame.Position()) <= Total(frame.pcm)
    ensures rings[..] == Sent(old(rings[..]), frame.pcm, old(frame.Position()),
                              Taken(old(rings[..]), frame.pcm, old(frame.Position())))
    ensures frame.Position() == old(frame.Position()) + Taken(old(rings[..]), frame.pcm, old(frame.Position()))
    ensures more <==> frame.Position() < Total(frame.pcm)
  {
    var space := rings[0].capacity - |rings[0].items|;
    var limit := space * rings.Length;
    ghost var was, p := rings[..], frame.Position();
    frame.DrainedIffAllTaken();
    assert Sent(was, frame.pcm, p, 0) == was;
    ghost var left := Total(frame.pcm) - p;
    assert Taken(was, frame.pcm, p) == if limit <= left then limit else left;
    hide Sent, ItemAt, TryPush, Taken, Total;
    var k := 0;
    while k < limit
      invariant frame.Valid() && k <= limit && k <= left
      invariant frame.Position() == p + k
      invariant rings[..] == Sent(was, frame.pcm, p, k)
    {
      var sent := SendItem(rings, frame, was, p, k);
      if !sent {
        break;
      }
      k := k + 1;
    }
    frame.DrainedIffAllTaken();
    more := !frame.Drained();
  }

  // ---- what a call leaves in a ring ----

  function Min(a: nat, b: nat): nat {
    if a <= b then a else b
  }

  /** The samples of a channel among k items from item p on. */
  ghost function ItemsFor(f: Pcm, p: nat, k: nat, ch: nat): seq<real>
    requires WellFormed(f) && p + k <= Total(f)
  {
    if k == 0 then []
    else
      var it := ItemAt(f, p + k - 1);
      ItemsFor(f, p, k - 1, ch) + if it.chan == ch then [it.sample] else []
  }

  /** How many of the first n items, dealt to c channels in turn, are channel ch's. */
  function Turns(c: nat, n: nat, ch: nat): nat
    requires c >= 1
  {
    n / c + if ch < n % c then 1 else 0
  }

  lemma NextTurn(c: nat, n: nat, ch: nat)
    requires ch < c
    ensures Turns(c, n + 1, ch) == Turns(c, n, ch) + if n % c == ch then 1 else 0
  {
    Successor(c, n);
  }

  lemma TurnsBound(c: nat, n: nat, ch: nat, rows: nat)
    requires ch < c && n <= c * rows
    ensures Turns(c, n, ch) <= rows
  {
    RowBound(c, n, rows);
    if n == c * rows {
      DivMod(c, rows, 0);
    }
  }

  /** Samples from..from+n of a channel. */
  ghost function Stream(f: Pcm, ch: nat, from: nat, n: nat): (s: seq<real>)
    requires WellFormed(f) && ch < f.chans && from + n <= f.samples
    ensures |s| == n && forall i :: 0 <= i < n ==> s[i] == SampleOf(f, ch, from + i)
  {
    if n == 0 then [] else Stream(f, ch, from, n - 1) + [SampleOf(f, ch, from + n - 1)]
  }

  /** A channel's items are its consecutive samples, one for each of its turns. */
  lemma {:induction false} ItemsAreSamples(f: Pcm, p: nat, k: nat, ch: nat)
    requires WellFormed(f) && p + k <= Total(f) && ch < f.chans
    ensures Turns(f.chans, p, ch) <= Turns(f.chans, p + k, ch) <= f.samples
    ensures ItemsFor(f, p, k, ch)
            == Stream(f, ch, Turns(f.chans, p, ch), Turns(f.chans, p + k, ch) - Turns(f.chans, p, ch))
  {
    TurnsBound(f.chans, p + k, ch, f.samples);
    if k > 0 {
      ItemsAreSamples(f, p, k - 1, ch);
      NextTurn(f.chans, p + k - 1, ch);
    }
  }

  /** In a whole frame these are all the channel's samples. */
  lemma WholeFrame(f: Pcm, ch: nat)
    requires WellFormed(f) && ch < f.chans
    ensures ItemsFor(f, 0, Total(f), ch) == Stream(f, ch, 0, f.samples)
  {
    ItemsAreSamples(f, 0, Total(f), ch);
    DivMod(f.chans, f.samples, 0);
  }

  /** Every ring gets its channel's items in order, as many as it has room for; the rest is lost. */
  lemma {:induction false} SentFits(rs: seq<Ring>, f: Pcm, p: nat, k: nat, ch: nat)
    requires Ready(rs, f) && p + k <= Total(f) && ch < |rs|
    ensures Sent(rs, f, p, k)[ch] ==
            rs[ch].(items := rs[ch].items + ItemsFor(f, p, k, ch)[..Min(|ItemsFor(f, p, k, ch)|, Free(rs[ch]))])
  {
    if k > 0 {
      SentFits(rs, f, p, k - 1, ch);
      SentStep(rs, f, p, k - 1);
      PushFits(rs[ch], ItemsFor(f, p, k - 1, ch), ItemAt(f, p + k - 1).sample);
      hide Sent, TryPush;
    }
  }

  lemma PushFits(r: Ring, items: seq<real>, s: real)
    requires Fits(r)
    ensures
      var more := items + [s];
      TryPush(r.(items := r.items + items[..Min(|items|, Free(r))]), s)
        == r.(items := r.items + more[..Min(|more|, Free(r))])
  {
    var more := items + [s];
    if |items| < Free(r) {
      assert more[..|more|] == items[..|items|] + [s];
    } else {
      assert more[..Free(r)] == items[..Free(r)];
    }
  }

  /** Every channel finds room for its share of what the call takes. */
  ghost predicate RoomForAll(rs: seq<Ring>, f: Pcm, p: nat)
    requires Ready(rs, f) && p <= Total(f)
  {
    forall ch :: 0 <= ch < f.chans ==> |ItemsFor(f, p, Taken(rs, f, p), ch)| <= Free(rs[ch])
  }

  ghost predicate LosesNothing(rs: seq<Ring>, f: Pcm, p: nat)
    requires Ready(rs, f) && p <= Total(f)
  {
    forall ch :: 0 <= ch < f.chans ==>
                   Sent(rs, f, p, Taken(rs, f, p))[ch].items == rs[ch].items + ItemsFor(f, p, Taken(rs, f, p), ch)
  }

  /** A call, wherever in the frame it starts and however many senders there are, loses nothing if and
      only if every channel has room for its share. */
  lemma LosslessIff(rs: seq<Ring>, f: Pcm, p: nat)
    requires Ready(rs, f) && p <= Total(f)
    ensures LosesNothing(rs, f, p) <==> RoomForAll(rs, f, p)
  {
    var k := Taken(rs, f, p);
    forall ch | 0 <= ch < f.chans
      ensures Sent(rs, f, p, k)[ch].items == rs[ch].items + ItemsFor(f, p, k, ch)
              <==> |ItemsFor(f, p, k, ch)| <= Free(rs[ch])
    {
      SentFits(rs, f, p, k, ch);
      var items := ItemsFor(f, p, k, ch);
      assert items[..|items|] == items;
      assert |rs[ch].items + items[..Min(|items|, Free(rs[ch]))]| == |rs[ch].items| + Min(|items|, Free(rs[ch]));
    }
  }

  lemma RoundSum(c: nat, q: nat)
    ensures c * (q + 1) == c * q + c
  {
  }

  /** After n whole rounds every channel has had n more turns. */
  lemma WholeRounds(c: nat, p: nat, n: nat, ch: nat)
    requires ch < c
    ensures Turns(c, p + c * n, ch) == Turns(c, p, ch) + n
  {
    var d, m := p / c, p % c;
    Distribute(c, d, n);
    assert p + c * n == c * (d + n) + m;
    DivMod(c, d + n, m);
  }

  lemma {:induction false} TurnsGrow(c: nat, n: nat, m: nat, ch: nat)
    requires ch < c && n <= m
    ensures Turns(c, n, ch) <= Turns(c, m, ch)
    decreases m - n
  {
    if n < m {
      NextTurn(c, n, ch);
      TurnsGrow(c, n + 1, m, ch);
    }
  }

  /** While no more than n whole rounds are taken no channel gets more than n items; with more, the
      channel that is next does. */
  lemma ShareBound(f: Pcm, p: nat, k: nat, n: nat)
    requires WellFormed(f) && p + k <= Total(f)
    ensures k <= f.chans * n ==> forall ch :: 0 <= ch < f.chans ==> |ItemsFor(f, p, k, ch)| <= n
    ensures k > f.chans * n ==> |ItemsFor(f, p, k, p % f.chans)| > n
  {
    var c := f.chans;
    forall ch | 0 <= ch < c && k <= c * n ensures |ItemsFor(f, p, k, ch)| <= n {
      ItemsAreSamples(f, p, k, ch);
      WholeRounds(c, p, n, ch);
      TurnsGrow(c, p + k, p + c * n, ch);
    }
    if k > c * n {
      var ch := p % c;
      ItemsAreSamples(f, p, k, ch);
      WholeRounds(c, p, n, ch);
      NextTurn(c, p + c * n, ch) by { Remainder(c, p, n); }
      Remainder(c, p, n);
      TurnsGrow(c, p + c * n + 1, p + k, ch);
    }
  }

  lemma Remainder(c: nat, p: nat, n: nat)
    requires c >= 1
    ensures (p + c * n) % c == p % c
  {
    Distribute(c, p / c, n);
    assert p + c * n == c * (p / c + n) + p % c;
    DivMod(c, p / c + n, p % c);
  }

  ghost predicate EquallyFree(rs: seq<Ring>, f: Pcm)
    requires Ready(rs, f)
  {
    forall ch :: 0 <= ch < f.chans ==> Free(rs[ch]) == Free(rs[0])
  }

  /** With a sender per channel and equally free rings no call loses anything. With one sender more,
      it loses samples unless all that is left of the frame fits, or there is no room at all. */
  lemma ExtraSenderLosesIff(rs: seq<Ring>, f: Pcm, p: nat)
    requires Ready(rs, f) && p <= Total(f) && EquallyFree(rs, f)
    ensures LosesNothing(rs, f, p) <==>
            |rs| == f.chans || Free(rs[0]) == 0 || Total(f) - p <= f.chans * Free(rs[0])
  {
    var n, k := Free(rs[0]), Taken(rs, f, p);
    LosslessIff(rs, f, p);
    ShareBound(f, p, k, n);
    if |rs| > f.chans {
      MulAtLeast(n, |rs|, f.chans + 1);
      RoundSum(n, f.chans);
    }
    if k > f.chans * n {
      assert Free(rs[p % f.chans]) == n;
    }
  }

  /** With a sender per channel it is enough that no ring is fuller than the first. */
  lemma FirstFullestSuffices(rs: seq<Ring>, f: Pcm, p: nat)
    requires Ready(rs, f) && p <= Total(f) && |rs| == f.chans
    requires forall ch :: 0 <= ch < f.chans ==> Free(rs[ch]) >= Free(rs[0])
    ensures RoomForAll(rs, f, p)
  {
    ShareBound(f, p, Taken(rs, f, p), Free(rs[0]));
  }

  // ---- a whole frame, in any number of calls ----

  /** `heard` is what each ring's player has taken out of it so far, `pos` the items taken. */
  datatype Spooling = Spooling(rings: seq<Ring>, heard: seq<seq<real>>, pos: nat)

  ghost predicate Ongoing(s: Spooling, f: Pcm) {
    Ready(s.rings, f) && |s.heard| == |s.rings| && s.pos <= Total(f)
  }

  function Drunk(r: Ring, n: nat): Ring {
    r.(items := r.items[Min(n, |r.items|)..])
  }

  /** The rings when the players have taken what they like. */
  ghost function Drained(s: Spooling, f: Pcm, drinks: seq<nat>): (rings: seq<Ring>)
    requires Ongoing(s, f) && |drinks| == |s.rings|
    ensures |rings| == |s.rings| && Ready(rings, f)
  {
    seq(|s.rings|, ch requires 0 <= ch < |s.rings| => Drunk(s.rings[ch], drinks[ch]))
  }

  /** The players take what they like, then the spooler sends what it can. */
  ghost function Round(s: Spooling, f: Pcm, drinks: seq<nat>): (r: Spooling)
    requires Ongoing(s, f) && |drinks| == |s.rings|
    ensures Ongoing(r, f) && |r.rings| == |s.rings|
  {
    var rings := Drained(s, f, drinks);
    var k := Taken(rings, f, s.pos);
    Spooling(Sent(rings, f, s.pos, k),
             seq(|s.rings|, ch requires 0 <= ch < |s.rings| =>
                 s.heard[ch] + s.rings[ch].items[..Min(drinks[ch], |s.rings[ch].items|)]),
             s.pos + k)
  }

  /** What of a channel has left the spooler. */
  ghost function Out(s: Spooling, ch: nat): seq<real>
    requires ch < |s.rings| && ch < |s.heard|
  {
    s.heard[ch] + s.rings[ch].items
  }

  /** One round adds to a channel its next samples, as many as there was room for. */
  lemma RoundAdds(s: Spooling, f: Pcm, drinks: seq<nat>, ch: nat)
    requires Ongoing(s, f) && |drinks| == |s.rings| && ch < f.chans
    ensures
      var rings := Drained(s, f, drinks);
      var items := ItemsFor(f, s.pos, Taken(rings, f, s.pos), ch);
      Out(Round(s, f, drinks), ch) == Out(s, ch) + items[..Min(|items|, Free(rings[ch]))]
  {
    var rings := Drained(s, f, drinks);
    var k := Taken(rings, f, s.pos);
    var items := ItemsFor(f, s.pos, k, ch);
    SentFits(rings, f, s.pos, k, ch);
    RingRound(s.heard[ch], s.rings[ch].items, Min(drinks[ch], |s.rings[ch].items|),
              items[..Min(|items|, Free(rings[ch]))]);
  }

  lemma RingRound(heard: seq<real>, items: seq<real>, n: nat, more: seq<real>)
    requires n <= |items|
    ensures (heard + items[..n]) + (items[n..] + more) == heard + items + more
  {
  }

  ghost function Rounds(s: Spooling, f: Pcm, runs: seq<seq<nat>>): (r: Spooling)
    requires Ongoing(s, f) && forall i :: 0 <= i < |runs| ==> |runs[i]| == |s.rings|
    ensures Ongoing(r, f) && |r.rings| == |s.rings|
  {
    if runs == [] then s else Round(Rounds(s, f, runs[..|runs| - 1]), f, runs[|runs| - 1])
  }

  /** In every call of the run every channel found room for its share. */
  ghost predicate RoomThroughout(s: Spooling, f: Pcm, runs: seq<seq<nat>>)
    requires Ongoing(s, f) && forall i :: 0 <= i < |runs| ==> |runs[i]| == |s.rings|
  {
    runs != [] ==>
      && RoomThroughout(s, f, runs[..|runs| - 1])
      && var before := Rounds(s, f, runs[..|runs| - 1]);
      RoomForAll(Drained(before, f, runs[|runs| - 1]), f, before.pos)
  }

  /** A channel has, after what it had before, exactly the samples whose turn has come. */
  ghost predicate Complete(s: Spooling, f: Pcm, ch: nat, before: seq<real>)
    requires Ongoing(s, f) && ch < f.chans
  {
    Out(s, ch) == before + ItemsFor(f, 0, s.pos, ch)
  }

  lemma {:induction false} ItemsJoin(f: Pcm, a: nat, b: nat, ch: nat)
    requires WellFormed(f) && a + b <= Total(f)
    ensures ItemsFor(f, 0, a + b, ch) == ItemsFor(f, 0, a, ch) + ItemsFor(f, a, b, ch)
    decreases b
  {
    if b > 0 {
      ItemsJoin(f, a, b - 1, ch);
    }
  }

  /** A prefix law: appending at most `more` to at most `due` gives both in full iff each was in full. */
  lemma BothInFull(out: seq<real>, due: seq<real>, more: seq<real>, n: nat)
    requires n <= |more| && |out| <= |due|
    ensures out + more[..n] == due + more <==> out == due && n == |more|
  {
    if out + more[..n] == due + more {
      assert |out + more[..n]| == |due + more|;
      assert out == (out + more[..n])[..|out|];
      assert due == (due + more)[..|due|];
    }
  }

  lemma RoundCompleteIff(s: Spooling, f: Pcm, drinks: seq<nat>, ch: nat, before: seq<real>)
    requires Ongoing(s, f) && |drinks| == |s.rings| && ch < f.chans
    requires |Out(s, ch)| <= |before + ItemsFor(f, 0, s.pos, ch)|
    ensures
      var r, rings := Round(s, f, drinks), Drained(s, f, drinks);
      && |Out(r, ch)| <= |before + ItemsFor(f, 0, r.pos, ch)|
      && (Complete(r, f, ch, before) <==>
            Complete(s, f, ch, before) && |ItemsFor(f, s.pos, Taken(rings, f, s.pos), ch)| <= Free(rings[ch]))
  {
    var rings := Drained(s, f, drinks);
    var k := Taken(rings, f, s.pos);
    var items, due := ItemsFor(f, s.pos, k, ch), before + ItemsFor(f, 0, s.pos, ch);
    RoundAdds(s, f, drinks, ch);
    ItemsJoin(f, s.pos, k, ch);
    assert before + ItemsFor(f, 0, s.pos + k, ch) == due + items;
    BothInFull(Out(s, ch), due, items, Min(|items|, Free(rings[ch])));
    hide ItemsFor, Taken, Sent, Drained, Out;
  }

  /** Over any number of calls, with any number of senders, every channel has got exactly the samples
      whose turn has come, in order, if and only if there was room for every share of every call. */
  lemma {:induction false} NothingLostIff(s: Spooling, f: Pcm, runs: seq<seq<nat>>)
    requires Ongoing(s, f) && s.pos == 0 && forall i :: 0 <= i < |runs| ==> |runs[i]| == |s.rings|
    ensures forall ch :: 0 <= ch < f.chans ==>
                           |Out(Rounds(s, f, runs), ch)| <= |Out(s, ch) + ItemsFor(f, 0, Rounds(s, f, runs).pos, ch)|
    ensures (forall ch :: 0 <= ch < f.chans ==> Complete(Rounds(s, f, runs), f, ch, Out(s, ch)))
            <==> RoomThroughout(s, f, runs)
    decreases |runs|
  {
    if runs == [] {
      assert forall ch :: 0 <= ch < f.chans ==> Out(s, ch) + [] == Out(s, ch);
    } else {
      var init, last := Rounds(s, f, runs[..|runs| - 1]), runs[|runs| - 1];
      NothingLostIff(s, f, runs[..|runs| - 1]);
      forall ch | 0 <= ch < f.chans
        ensures |Out(Round(init, f, last), ch)| <= |Out(s, ch) + ItemsFor(f, 0, Round(init, f, last).pos, ch)|
        ensures Complete(Round(init, f, last), f, ch, Out(s, ch)) <==>
                && Complete(init, f, ch, Out(s, ch))
                && |ItemsFor(f, init.pos, Taken(Drained(init, f, last), f, init.pos),
                             ch)| <= Free(Drained(init, f, last)[ch])
      {
        RoundCompleteIff(init, f, last, ch, Out(s, ch));
      }
      hide Complete, Out, ItemsFor, Round, Taken, Drained;
    }
  }

  ghost predicate AlwaysFirstFullest(s: Spooling, f: Pcm, runs: seq<seq<nat>>)
    requires Ongoing(s, f) && forall i :: 0 <= i < |runs| ==> |runs[i]| == |s.rings|
  {
    runs != [] ==>
      && AlwaysFirstFullest(s, f, runs[..|runs| - 1])
      && var rings := Drained(Rounds(s, f, runs[..|runs| - 1]), f, runs[|runs| - 1]);
      forall ch :: 0 <= ch < f.chans ==> Free(rings[ch]) >= Free(rings[0])
  }

  /** With a sender per channel, none of whose rings is ever fuller than the first, nothing is lost; a
      drained frame has given every channel all its samples. */
  lemma {:induction false} NothingLost(s: Spooling, f: Pcm, runs: seq<seq<nat>>)
    requires Ongoing(s, f) && s.pos == 0 && |s.rings| == f.chans
    requires (forall i :: 0 <= i < |runs| ==> |runs[i]| == f.chans) && AlwaysFirstFullest(s, f, runs)
    ensures RoomThroughout(s, f, runs)
    ensures forall ch :: 0 <= ch < f.chans ==> Complete(Rounds(s, f, runs), f, ch, Out(s, ch))
    ensures Rounds(s, f, runs).pos == Total(f) ==>
              forall ch :: 0 <= ch < f.chans ==> Out(Rounds(s, f, runs), ch) == Out(s, ch) + Stream(f, ch, 0, f.samples)
    decreases |runs|
  {
    if runs != [] {
      var init := Rounds(s, f, runs[..|runs| - 1]);
      NothingLost(s, f, runs[..|runs| - 1]);
      FirstFullestSuffices(Drained(init, f, runs[|runs| - 1]), f, init.pos);
    }
    NothingLostIff(s, f, runs);
    forall ch | 0 <= ch < f.chans ensures ItemsFor(f, 0, Total(f), ch) == Stream(f, ch, 0, f.samples) {
      WholeFrame(f, ch);
    }
    hide Out, ItemsFor, Round, Taken, Drained;
  }
}
