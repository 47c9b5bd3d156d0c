/**
  `AtomSimulation`: an atom's electrons on circular shells. Construction lays
  the electrons out shell by shell with angles taken from a random
  distribution over [0, 2*pi); each time step turns every electron by its
  angular velocity times `dt` and accumulates the simulated time.

  The Mersenne Twister behind the angle distribution is replaced by the
  sequence of values it yields, `rng`, each in [0, 2*pi): a draw consumes
  the head of that sequence.
 */
module Atom {
  import opened Angles
  import opened Shells
  import opened Motion

  /** Appending the next electron of a block extends the prefix of the block built so far. */
  lemma AppendNext(done: seq<Electron>, block: seq<Electron>, i: int, e: Electron)
    requires 0 <= i < |block| && e == block[i]
    ensures done + block[..i] + [e] == done + block[..i + 1]
  {
    assert block[..i + 1] == block[..i] + [e];
  }

  /** The angle `step` computes for one electron is the one `Advanced` gives it. */
  lemma TurnedElectron(es: seq<Electron>, dt: real, j: int, e: Electron, angle: real)
    requires 0 <= j < |es| && e == es[j]
    requires angle == Normalize(e.angle + Sweep(e.angularVelocity, dt))
    ensures |Advanced(es, dt)| == |es|
    ensures Advanced(es, dt)[j] == e.(angle := angle)
  {
    NormalizeIsDirection(e.angle + Sweep(e.angularVelocity, dt));
    AdvancedAt(es, dt, j);
  }

  /** `shellRadius`: the drawing radius of a shell, 0.8 per shell index. */
  function ShellRadius(shell: int): (r: real)
    ensures shell > 0 <==> r > 0.0
    ensures shell >= 1 ==> r >= 0.8
  {
    0.8 * shell as real
  }

  /** Outer shells are drawn further out. */
  lemma ShellRadiusIncreasing(s: int, t: int)
    requires s < t
    ensures ShellRadius(s) < ShellRadius(t)
  {
  }

  /** The radii of the two shells of the carbon example. */
  lemma ShellRadiusValues()
    ensures ShellRadius(1) == 0.8 && ShellRadius(2) == 1.6
  {
  }

  class AtomSimulation {
    var elementName: string
    var protons: int
    var neutrons: int
    var shellOccupancy: seq<int>
    var electrons: seq<Electron>
    var time: real
    /** The values the angle distribution has still to yield, in order. */
    var rng: seq<real>

    /**
      The electrons are the layout of `shellOccupancy` (for the angles they
      now have) and every angle is a direction in [0, 2*pi).
     */
    ghost predicate Valid()
      reads this
    {
      IsLayoutOf(electrons, shellOccupancy) &&
      forall j :: 0 <= j < |electrons| ==> InTurn(electrons[j].angle)
    }

    /**
      Stores the element data and lays out the electrons, taking their
      angles from `draws` in order. `draws` must hold at least one value per
      electron, each in [0, 2*pi) as the angle distribution yields them.
     */
    constructor (elementName: string, protons: int, neutrons: int, shellOccupancy: seq<int>, draws: seq<real>)
      requires TotalElectrons(shellOccupancy) <= |draws|
      requires forall j :: 0 <= j < |draws| ==> InTurn(draws[j])
      ensures Valid()
      ensures this.elementName == elementName && this.protons == protons && this.neutrons == neutrons
      ensures this.shellOccupancy == shellOccupancy
      ensures electrons == Layout(shellOccupancy, draws)
      ensures |electrons| == TotalElectrons(shellOccupancy)
      ensures rng == draws[TotalElectrons(shellOccupancy)..]
      ensures time == 0.0
    {
      this.elementName := elementName;
      this.protons := protons;
      this.neutrons := neutrons;
      this.shellOccupancy := shellOccupancy;
      electrons := [];
      time := 0.0;
      rng := draws;
      new;
      InitializeElectrons();
      LayoutIsLayoutOf(shellOccupancy, draws);
      LayoutAnglesInTurn(shellOccupancy, draws);
    }

    /**
      `initializeElectrons`: for each shell index in order, appends one
      electron per unit of occupancy with the next drawn angle and the
      shell's base velocity plus its jitter.
     */
    method InitializeElectrons()
      requires electrons == []
      requires TotalElectrons(shellOccupancy) <= |rng|
      modifies this`electrons, this`rng
      ensures electrons == Layout(shellOccupancy, old(rng))
      ensures rng == old(rng)[TotalElectrons(shellOccupancy)..]
    {
      ghost var draws := rng;
      var shellIndex := 0;
      while shellIndex < |shellOccupancy|
        invariant 0 <= shellIndex <= |shellOccupancy|
        invariant TotalElectrons(shellOccupancy[..shellIndex]) <= TotalElectrons(shellOccupancy) <= |draws|
        invariant electrons == Layout(shellOccupancy[..shellIndex], draws)
        invariant rng == draws[TotalElectrons(shellOccupancy[..shellIndex])..]
      {
        ghost var before := TotalElectrons(shellOccupancy[..shellIndex]);
        assert TotalElectrons(shellOccupancy[..shellIndex + 1]) == before + ShellSize(shellOccupancy[shellIndex])
                                                               <= TotalElectrons(shellOccupancy) by {
          TotalPrefix(shellOccupancy, shellIndex);
        }
        AppendShell(shellIndex + 1, shellOccupancy[shellIndex]);
        assert electrons == Layout(shellOccupancy[..shellIndex + 1], draws) by {
          LayoutExtend(shellOccupancy, draws, shellIndex);
        }
        shellIndex := shellIndex + 1;
      }
      assert shellOccupancy[..shellIndex] == shellOccupancy;
    }

    /**
      The inner loop of `initializeElectrons` for one shell: appends `count`
      electrons (none when `count` is not positive) with the next drawn
      angles and velocity `3/shell` plus the jitter `(i / max(1, count)) * 0.2`.
     */
    method AppendShell(shell: int, count: int)
      requires shell >= 1 && ShellSize(count) <= |rng|
      modifies this`electrons, this`rng
      ensures electrons == old(electrons) + ShellBlock(shell, count, old(rng))
      ensures rng == old(rng)[ShellSize(count)..]
    {
      ghost var draws := rng;
      ghost var done := electrons;
      ghost var block := ShellBlock(shell, count, draws);
      var baseVelocity := 3.0 / shell as real;
      var i := 0;
      while i < count
        invariant 0 <= i <= ShellSize(count)
        invariant electrons == done + block[..i]
        invariant rng == draws[i..]
      {
        var jitter := (i as real / Max(1, count) as real) * 0.2;
        var angle := rng[0];
        rng := rng[1..];
        ghost var e := Electron(shell, angle, baseVelocity + jitter);
        assert e == block[i] by {
          BlockAt(shell, count, draws, i);
        }
        AppendNext(done, block, i, e);
        electrons := electrons + [Electron(shell, angle, baseVelocity + jitter)];
        i := i + 1;
      }
      assert block[..i] == block;
    }

    /**
      `step`: turns every electron by its angular velocity times `dt`,
      reduced into [0, 2*pi) by the truncating remainder plus one turn when
      that is negative, and adds `dt` to the simulated time.
     */
    method Step(dt: real)
      modifies this`electrons, this`time
      ensures electrons == Advanced(old(electrons), dt)
      ensures time == old(time) + dt
      ensures old(Valid()) ==> Valid()
    {
      ghost var start := electrons;
      var i := 0;
      while i < |electrons|
        invariant 0 <= i <= |electrons| == |start|
        invariant time == old(time)
        invariant forall j :: 0 <= j < i ==> electrons[j] == Advanced(start, dt)[j]
        invariant forall j :: i <= j < |electrons| ==> electrons[j] == start[j]
      {
        var e := electrons[i];
        var turned := e.angle + Sweep(e.angularVelocity, dt);
        var angle := FMod(turned, TwoPi);
        if angle < 0.0 {
          angle := angle + TwoPi;
        }
        assert angle == Normalize(turned);
        TurnedElectron(start, dt, i, e, angle);
        electrons := electrons[i := e.(angle := angle)];
        i := i + 1;
      }
      time := time + dt;
      assert electrons == Advanced(start, dt);
      if old(Valid()) {
        assert IsLayoutOf(start, shellOccupancy);
        AdvancedKeepsLayout(start, shellOccupancy, dt);
      }
    }
  }

  /**
    The example driver: a carbon atom with occupancy [2, 4] advanced by 12
    steps of 0.15 (the state it would print before each step is left out).
    Afterwards the simulated time is 1.8 and each electron has been turned
    by its velocity times 1.8 from its initial angle.
   */
  method CarbonExample(draws: seq<real>) returns (carbon: AtomSimulation)
    requires |draws| >= 6
    requires forall j :: 0 <= j < |draws| ==> InTurn(draws[j])
    ensures carbon.Valid()
    ensures carbon.elementName == "Carbon" && carbon.protons == 6 && carbon.neutrons == 6
    ensures carbon.time == 1.8
    ensures carbon.electrons == Evolved(Layout([2, 4], draws), 0.15, 12)
  {
    CarbonLayout(draws);
    carbon := new AtomSimulation("Carbon", 6, 6, [2, 4], draws);
    var dt := 0.15;
    var steps := 12;
    var i := 0;
    while i < steps
      invariant 0 <= i <= steps
      invariant carbon.Valid()
      invariant carbon.elementName == "Carbon" && carbon.protons == 6 && carbon.neutrons == 6
      invariant carbon.time == Elapsed(dt, i)
      invariant carbon.electrons == Evolved(Layout([2, 4], draws), dt, i)
    {
      carbon.Step(dt);
      i := i + 1;
    }
    ElapsedIsProduct(dt, steps);
  }

  /**
    Where the driver leaves electron `j`: its initial angle `draws[j]` turned
    by its angular velocity times the simulated time 1.8.
   */
  lemma CarbonFinalAngles(draws: seq<real>, j: int)
    requires |draws| >= 6 && 0 <= j < 6
    ensures |Layout([2, 4], draws)| == |Evolved(Layout([2, 4], draws), 0.15, 12)| == 6
    ensures Evolved(Layout([2, 4], draws), 0.15, 12)[j].angle ==
            Direction(draws[j] + Sweep(Layout([2, 4], draws)[j].angularVelocity, 1.8))
  {
    var es := Layout([2, 4], draws);
    assert TotalElectrons([2, 4]) == 6;
    LayoutAngle([2, 4], draws, j);
    EvolvedAngle(es, 0.15, 12, j);
  }

  /**
    One step of 0.15 from the carbon layout turns the two shell-1 electrons
    by (3.0 + 0) * 0.15 and (3.0 + 0.1) * 0.15 from their initial angles.
   */
  lemma CarbonFirstStep(draws: seq<real>)
    requires |draws| >= 6
    ensures |Advanced(Layout([2, 4], draws), 0.15)| == 6
    ensures Advanced(Layout([2, 4], draws), 0.15)[0].angle == Direction(draws[0] + 0.45)
    ensures Advanced(Layout([2, 4], draws), 0.15)[1].angle == Direction(draws[1] + 0.465)
  {
    CarbonLayout(draws);
    var es := Layout([2, 4], draws);
    AdvancedAt(es, 0.15, 0);
    AdvancedAt(es, 0.15, 1);
    assert Sweep(3.0, 0.15) == 0.45 && Sweep(3.1, 0.15) == 0.465;
  }
}
