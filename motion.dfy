/**
  What one time step does to the electron sequence, stated on values: every
  electron turns by `angularVelocity * dt` into the direction in [0, 2*pi)
  that this reaches, and nothing else about it changes. `Evolved` is `n`
  such steps.
 */
module Motion {
  import opened Angles
  import opened Shells

  /** The angle swept at angular velocity `v` in time `t`. */
  function Sweep(v: real, t: real): real
  {
    v * t
  }

  /** One electron after a step of length `dt`. */
  ghost function Advance(e: Electron, dt: real): (e': Electron)
    ensures e'.shell == e.shell && e'.angularVelocity == e.angularVelocity
    ensures InTurn(e'.angle)
    ensures SameAngle(e'.angle, e.angle + Sweep(e.angularVelocity, dt))
  {
    e.(angle := Direction(e.angle + Sweep(e.angularVelocity, dt)))
  }

  /**
    The electron sequence after a step of length `dt`: no electron is added,
    removed, reordered, relabelled or sped up, and every angle is in
    [0, 2*pi) and congruent to the old angle plus `angularVelocity * dt`.
   */
  ghost function Advanced(es: seq<Electron>, dt: real): (fs: seq<Electron>)
    ensures SameOrbits(es, fs)
    ensures forall j :: 0 <= j < |fs| ==>
      InTurn(fs[j].angle) && SameAngle(fs[j].angle, es[j].angle + Sweep(es[j].angularVelocity, dt))
  {
    seq(|es|, j requires 0 <= j < |es| => Advance(es[j], dt))
  }

  /** A step keeps the shape that construction gave the electrons. */
  lemma AdvancedKeepsLayout(es: seq<Electron>, occupancy: seq<int>, dt: real)
    requires IsLayoutOf(es, occupancy)
    ensures IsLayoutOf(Advanced(es, dt), occupancy)
  {
    ReangledLayout(es, Advanced(es, dt), occupancy);
  }

  /** A step turns electron `j` to the direction of its angle plus its turn per step, and changes nothing else about it. */
  lemma AdvancedAt(es: seq<Electron>, dt: real, j: int)
    requires 0 <= j < |es|
    ensures |Advanced(es, dt)| == |es|
    ensures Advanced(es, dt)[j] == es[j].(angle := Direction(es[j].angle + Sweep(es[j].angularVelocity, dt)))
  {
    assert Advanced(es, dt)[j] == Advance(es[j], dt);
  }

  /**
    The electrons after `n` steps of length `dt`: however many steps are
    taken, no electron is added, removed, reordered, relabelled or sped up,
    and after at least one step every angle lies in [0, 2*pi).
   */
  ghost function Evolved(es: seq<Electron>, dt: real, n: nat): (fs: seq<Electron>)
    ensures SameOrbits(es, fs)
    ensures n >= 1 ==> forall j :: 0 <= j < |fs| ==> InTurn(fs[j].angle)
  {
    if n == 0 then es else Advanced(Evolved(es, dt, n - 1), dt)
  }

  /**
    `n` increments of `d` added one after another: the simulated time after
    `n` steps of `d` (as `time_ += dt` accumulates it), or the turn an
    electron sweeps in `n` steps when `d` is its turn per step.
   */
  function Elapsed(d: real, n: nat): (total: real)
    ensures d >= 0.0 ==> total >= 0.0
    ensures d > 0.0 && n >= 1 ==> total >= d
  {
    if n == 0 then 0.0 else Elapsed(d, n - 1) + d
  }

  /** In exact arithmetic `n` accumulated increments of `d` make `n * d`. */
  lemma {:induction false} ElapsedIsProduct(d: real, n: nat)
    ensures Elapsed(d, n) == n as real * d
  {
    if n > 0 {
      ElapsedIsProduct(d, n - 1);
    }
  }

  /**
    Steps do not drift: after `n >= 1` steps of `dt` each electron points
    where turning its initial angle through all `n` step-turns at once
    points it.
   */
  lemma {:induction false} EvolvedClosedForm(es: seq<Electron>, dt: real, n: nat, j: int)
    requires n >= 1 && 0 <= j < |es|
    ensures |Evolved(es, dt, n)| == |es|
    ensures Evolved(es, dt, n)[j].angle ==
            Direction(es[j].angle + Elapsed(Sweep(es[j].angularVelocity, dt), n))
  {
    var m: nat := n - 1;
    var prev := Evolved(es, dt, m);
    assert Evolved(es, dt, n) == Advanced(prev, dt);
    AdvancedAt(prev, dt, j);
    var d := Sweep(es[j].angularVelocity, dt);
    if m == 0 {
      assert Elapsed(d, n) == Elapsed(d, 0) + d;
      TurnOnce(prev[j].angle, es[j].angle, Sweep(prev[j].angularVelocity, dt), d, Elapsed(d, n));
    } else {
      EvolvedClosedForm(es, dt, m, j);
      TurnAgain(prev[j].angle, es[j].angle, Sweep(prev[j].angularVelocity, dt), d, Elapsed(d, m), Elapsed(d, n));
    }
  }

  /** The first step turns the initial angle by one step-turn. */
  lemma TurnOnce(now: real, start: real, t: real, d: real, total: real)
    requires now == start && t == d && total == d
    ensures Direction(now + t) == Direction(start + total)
  {
    assert now + t == start + total;
  }

  /** A further step adds one more step-turn to the accumulated turn. */
  lemma TurnAgain(now: real, start: real, t: real, d: real, sofar: real, total: real)
    requires now == Direction(start + sofar) && t == d && total == sofar + d
    ensures Direction(now + t) == Direction(start + total)
  {
    DirectionShift(start + sofar, t);
    assert start + sofar + t == start + total;
  }

  /** The turn accumulated over `n` steps is the angle swept in the elapsed time `n * dt`. */
  lemma {:induction false} ElapsedTurn(v: real, dt: real, n: nat)
    ensures Elapsed(Sweep(v, dt), n) == Sweep(v, n as real * dt)
  {
    if n > 0 {
      ElapsedTurn(v, dt, n - 1);
      assert v * ((n - 1) as real * dt) + v * dt == v * (n as real * dt);
    }
  }

  /**
    After `n >= 1` steps of `dt` electron `j` points in the direction of its
    initial angle plus the angle its velocity sweeps in the elapsed time `n * dt`.
   */
  lemma EvolvedAngle(es: seq<Electron>, dt: real, n: nat, j: int)
    requires n >= 1 && 0 <= j < |es|
    ensures |Evolved(es, dt, n)| == |es|
    ensures Evolved(es, dt, n)[j].angle ==
            Direction(es[j].angle + Sweep(es[j].angularVelocity, n as real * dt))
  {
    EvolvedClosedForm(es, dt, n, j);
    ElapsedTurn(es[j].angularVelocity, dt, n);
  }
}
