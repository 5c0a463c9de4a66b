/** Volume parameters and linear fades. Amplitudes are exact reals, times are nanoseconds. */
module Param {

  /** What a published fade reads from its shared cells. `id` stands for the identity pointer. */
  datatype Fade = Fade(from: real, delta: real, start: nat, duration: nat, active: bool, id: nat)

  datatype Parameter =
    | Raw(level: real)
    | TimedRaw(now: real, thresh: nat, before: real)
    | LinearFade(fade: Fade)

  function PercentageComplete(f: Fade, time: nat): real {
    if time > f.start + f.duration then 1.0
    else if f.start >= time || !f.active then 0.0
    else (time - f.start) as real / f.duration as real
  }

  function HandleLinear(f: Fade, time: nat): real {
    f.from + f.delta * PercentageComplete(f, time)
  }

  function Get(p: Parameter, time: nat): real {
    match p
    case Raw(level) => level
    case TimedRaw(now, thresh, before) => if time >= thresh then now else before
    case LinearFade(fade) => HandleLinear(fade, time)
  }

  lemma QuotientBounds(a: nat, b: nat, d: nat)
    requires a <= b <= d && d > 0
    ensures 0.0 <= a as real / d as real <= b as real / d as real <= 1.0
  {
    var x, y, z := a as real / d as real, b as real / d as real, d as real;
    assert x * z == a as real && y * z == b as real;
  }

  /** Progress never goes back and stays between nothing and everything. */
  lemma ProgressMonotone(f: Fade, t1: nat, t2: nat)
    requires t1 <= t2
    ensures 0.0 <= PercentageComplete(f, t1) <= PercentageComplete(f, t2) <= 1.0
  {
    if f.start < t1 <= f.start + f.duration {
      QuotientBounds(t1 - f.start, if t2 <= f.start + f.duration then t2 - f.start else f.duration, f.duration);
    } else if f.start < t2 <= f.start + f.duration {
      QuotientBounds(0, t2 - f.start, f.duration);
    }
  }

  /** An active fade starts at its `from` level, ends at its target and is a straight line. */
  lemma FadeEndpoints(f: Fade, t: nat)
    requires f.active
    ensures t <= f.start ==> HandleLinear(f, t) == f.from
    ensures t >= f.start + f.duration && t > f.start ==> HandleLinear(f, t) == f.from + f.delta
    ensures f.start <= t <= f.start + f.duration ==>
              (HandleLinear(f, t) - f.from) * f.duration as real == f.delta * (t - f.start) as real
  {
    var d := f.duration as real;
    if f.start < t <= f.start + f.duration {
      var q := (t - f.start) as real / d;
      assert q * d == (t - f.start) as real;
      assert HandleLinear(f, t) - f.from == f.delta * q;
      assert (f.delta * q) * d == f.delta * (q * d);
      if t == f.start + f.duration {
        assert (t - f.start) as real == d;
        assert q == 1.0;
      }
    }
  }

  /** A fade whose start is moved by `d` has, `d` later, the level it had before. */
  lemma ShiftedFade(f: Fade, g: Fade, t: nat, u: nat)
    requires g.from == f.from && g.delta == f.delta && g.duration == f.duration && g.active == f.active
    requires u - g.start == t - f.start
    ensures Get(LinearFade(g), u) == Get(LinearFade(f), t)
  {
    assert PercentageComplete(g, u) == PercentageComplete(f, t);
  }

  /** A parameter that several senders may point to (the master level of a cue). */
  class VolumeCell {
    var param: Parameter

    constructor (p: Parameter)
      ensures param == p
    {
      param := p;
    }
  }

  /** A fade under construction; its cells are written before it is published. */
  class FadeDetails {
    const from: real
    const delta: real
    const id: nat
    var startTime: nat
    var duration: nat
    var active: bool

    constructor (from: real, to: real, id: nat)
      ensures View() == Fade(from, to - from, 0, 0, false, id)
    {
      this.from, this.delta, this.id := from, to - from, id;
      startTime, duration, active := 0, 0, false;
    }

    function View(): Fade
      reads this
    {
      Fade(from, delta, startTime, duration, active, id)
    }

    method SetDuration(nanos: nat)
      modifies this`duration
      ensures View() == old(View()).(duration := nanos)
    {
      duration := nanos;
    }

    method StartFromTime(time: nat)
      modifies this`startTime, this`active
      ensures View() == old(View()).(start := time, active := true)
    {
      startTime := time;
      active := true;
    }
  }
}
