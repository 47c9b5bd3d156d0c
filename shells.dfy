/**
  The electron layout that `AtomSimulation` builds at construction: shell
  occupancies expanded, shell by shell, into one flat sequence of electrons,
  each with its shell label, its initial angle (the next random draw) and
  its angular velocity (the shell's base velocity plus a per-electron
  jitter). This module states what that layout is and proves its shape.
 */
module Shells {
  import opened Angles

  /** `Electron`: the shell it orbits on (1-based), its angle, its angular velocity. */
  datatype Electron = Electron(shell: int, angle: real, angularVelocity: real)

  /** `std::max` on `int`: the larger of its two arguments. */
  function Max(a: int, b: int): (m: int)
    ensures m >= a && m >= b
    ensures m == a || m == b
  {
    if a < b then b else a
  }

  /** Number of electrons the inner loop creates for occupancy `count`: none when `count` is not positive. */
  function ShellSize(count: int): nat
  {
    if count > 0 then count else 0
  }

  /** The loop `for (int i = 0; i < count; ++i)` runs `max(0, count)` times. */
  lemma ShellSizeIsMax(count: int)
    ensures ShellSize(count) == Max(0, count)
    ensures count <= 0 <==> ShellSize(count) == 0
  {
  }

  /** Number of electrons created for a whole occupancy vector: the sum of `max(0, occupancy[k])`. */
  function TotalElectrons(occupancy: seq<int>): nat
  {
    if occupancy == [] then 0
    else TotalElectrons(occupancy[..|occupancy| - 1]) + ShellSize(occupancy[|occupancy| - 1])
  }

  /**
    Angular velocity of the `i`-th electron (0-based) of a shell holding
    `count` electrons: `3.0 / shell + (i / max(1, count)) * 0.2`.
   */
  function Velocity(shell: int, i: int, count: int): real
    requires shell >= 1
  {
    3.0 / shell as real + (i as real / Max(1, count) as real) * 0.2
  }

  /**
    The first electron of a shell moves at the base velocity `3/shell`, and
    every electron of a shell of `count` stays below `3/shell + 0.2`.
   */
  lemma VelocityRange(shell: int, i: int, count: int)
    requires shell >= 1
    ensures i == 0 ==> Velocity(shell, i, count) == 3.0 / shell as real
    ensures 0 <= i < count ==>
      3.0 / shell as real <= Velocity(shell, i, count) < 3.0 / shell as real + 0.2
  {
    if 0 <= i < count {
      assert i as real / count as real < 1.0;
    }
  }

  /** The electrons the inner loop appends for one shell, taking their angles from `draws`. */
  function ShellBlock(shell: int, count: int, draws: seq<real>): (block: seq<Electron>)
    requires shell >= 1 && ShellSize(count) <= |draws|
    ensures |block| == ShellSize(count)
    ensures AnglesOf(block) == draws[..|block|]
  {
    seq(ShellSize(count), i requires 0 <= i < ShellSize(count) =>
      Electron(shell, draws[i], Velocity(shell, i, count)))
  }

  /**
    The electrons constructed for `occupancy` when the angle distribution
    yields `draws` in order: the blocks of shells 1, 2, ... one after the other.
   */
  function Layout(occupancy: seq<int>, draws: seq<real>): (es: seq<Electron>)
    requires TotalElectrons(occupancy) <= |draws|
    ensures |es| == TotalElectrons(occupancy)
  {
    if occupancy == [] then []
    else
      var k := |occupancy| - 1;
      var before := TotalElectrons(occupancy[..k]);
      Layout(occupancy[..k], draws) + ShellBlock(k + 1, occupancy[k], draws[before..])
  }

  /** The angles of `es`, in order. */
  function AnglesOf(es: seq<Electron>): (angles: seq<real>)
    ensures |angles| == |es|
  {
    seq(|es|, j requires 0 <= j < |es| => es[j].angle)
  }

  /** The shell labels of `es`, in order. */
  function ShellLabels(es: seq<Electron>): (labels: seq<int>)
    ensures |labels| == |es|
  {
    seq(|es|, j requires 0 <= j < |es| => es[j].shell)
  }

  /** `fs` is `es` with possibly other angles: same length, shells and velocities, position by position. */
  ghost predicate SameOrbits(es: seq<Electron>, fs: seq<Electron>)
  {
    |es| == |fs| &&
    forall j :: 0 <= j < |es| ==>
      es[j].shell == fs[j].shell && es[j].angularVelocity == fs[j].angularVelocity
  }

  /** `es` is the layout of `occupancy` for the angles its electrons now have. */
  ghost predicate IsLayoutOf(es: seq<Electron>, occupancy: seq<int>)
  {
    |es| == TotalElectrons(occupancy) && es == Layout(occupancy, AnglesOf(es))
  }

  // ---------------------------------------------------------------------------
  // Counting

  /** The electrons of the shells before index `k` are among those of the whole vector. */
  lemma {:induction false} TotalPrefix(occupancy: seq<int>, k: nat)
    requires k < |occupancy|
    ensures TotalElectrons(occupancy[..k + 1]) == TotalElectrons(occupancy[..k]) + ShellSize(occupancy[k])
    ensures TotalElectrons(occupancy[..k]) + ShellSize(occupancy[k]) <= TotalElectrons(occupancy)
    decreases |occupancy|
  {
    var n := |occupancy| - 1;
    assert occupancy[..k + 1][..k] == occupancy[..k];
    if k < n {
      assert occupancy[..n][..k] == occupancy[..k];
      assert occupancy[..n][..k + 1] == occupancy[..k + 1];
      TotalPrefix(occupancy[..n], k);
    } else {
      assert occupancy[..k + 1] == occupancy;
    }
  }

  /** Taking in one more shell appends that shell's block to the layout. */
  lemma LayoutExtend(occupancy: seq<int>, draws: seq<real>, k: nat)
    requires k < |occupancy| && TotalElectrons(occupancy) <= |draws|
    ensures TotalElectrons(occupancy[..k + 1]) == TotalElectrons(occupancy[..k]) + ShellSize(occupancy[k]) <= |draws|
    ensures Layout(occupancy[..k + 1], draws) ==
            Layout(occupancy[..k], draws) + ShellBlock(k + 1, occupancy[k], draws[TotalElectrons(occupancy[..k])..])
  {
    TotalPrefix(occupancy, k);
    assert occupancy[..k + 1][..k] == occupancy[..k];
  }

  /** The `i`-th electron of a shell's block: its shell, the `i`-th draw and the `i`-th velocity. */
  lemma BlockAt(shell: int, count: int, draws: seq<real>, i: int)
    requires shell >= 1 && ShellSize(count) <= |draws| && 0 <= i < ShellSize(count)
    ensures |ShellBlock(shell, count, draws)| == ShellSize(count)
    ensures ShellBlock(shell, count, draws)[i] == Electron(shell, draws[i], Velocity(shell, i, count))
  {
  }

  /** Construction creates no electron exactly when no shell has a positive count. */
  lemma {:induction false} NoElectronsExactly(occupancy: seq<int>)
    ensures TotalElectrons(occupancy) == 0 <==> forall k :: 0 <= k < |occupancy| ==> occupancy[k] <= 0
    decreases |occupancy|
  {
    if occupancy != [] {
      var n := |occupancy| - 1;
      NoElectronsExactly(occupancy[..n]);
      assert forall k :: 0 <= k < n ==> occupancy[..n][k] == occupancy[k];
    }
  }

  /** The electrons of the earlier shells keep their positions when the last shell is added. */
  lemma LayoutFront(occupancy: seq<int>, draws: seq<real>, j: int)
    requires occupancy != [] && TotalElectrons(occupancy) <= |draws|
    requires 0 <= j < TotalElectrons(occupancy[..|occupancy| - 1])
    ensures |Layout(occupancy[..|occupancy| - 1], draws)| <= |Layout(occupancy, draws)|
    ensures Layout(occupancy, draws)[j] == Layout(occupancy[..|occupancy| - 1], draws)[j]
  {
    var k := |occupancy| - 1;
    var front := Layout(occupancy[..k], draws);
    var block := ShellBlock(k + 1, occupancy[k], draws[|front|..]);
    assert Layout(occupancy, draws) == front + block;
  }

  /** The last shell's `i`-th electron follows the electrons of the earlier shells. */
  lemma LayoutBack(occupancy: seq<int>, draws: seq<real>, i: int)
    requires occupancy != [] && TotalElectrons(occupancy) <= |draws|
    requires 0 <= i < ShellSize(occupancy[|occupancy| - 1])
    ensures var k := |occupancy| - 1;
            var p := TotalElectrons(occupancy[..k]) + i;
            p < |Layout(occupancy, draws)| &&
            Layout(occupancy, draws)[p] == Electron(k + 1, draws[p], Velocity(k + 1, i, occupancy[k]))
  {
    var k := |occupancy| - 1;
    var front := Layout(occupancy[..k], draws);
    var block := ShellBlock(k + 1, occupancy[k], draws[|front|..]);
    assert Layout(occupancy, draws) == front + block;
    BlockAt(k + 1, occupancy[k], draws[|front|..], i);
  }

  /** No shells, no electrons. */
  lemma NoShellsNoElectrons(draws: seq<real>)
    ensures TotalElectrons([]) == 0 && Layout([], draws) == []
  {
  }

  // ---------------------------------------------------------------------------
  // Angles

  /** Electron `j` takes the `j`-th draw of the angle distribution. */
  lemma {:induction false} LayoutAngle(occupancy: seq<int>, draws: seq<real>, j: int)
    requires TotalElectrons(occupancy) <= |draws|
    requires 0 <= j < TotalElectrons(occupancy)
    ensures |Layout(occupancy, draws)| == TotalElectrons(occupancy)
    ensures Layout(occupancy, draws)[j].angle == draws[j]
    decreases |occupancy|
  {
    var k := |occupancy| - 1;
    var before := TotalElectrons(occupancy[..k]);
    if j < before {
      LayoutFront(occupancy, draws, j);
      LayoutAngle(occupancy[..k], draws, j);
    } else {
      LayoutBack(occupancy, draws, j - before);
    }
  }

  /** When every draw lies in [0, 2*pi), so does every initial angle. */
  lemma LayoutAnglesInTurn(occupancy: seq<int>, draws: seq<real>)
    requires TotalElectrons(occupancy) <= |draws|
    requires forall j :: 0 <= j < |draws| ==> InTurn(draws[j])
    ensures forall e :: e in Layout(occupancy, draws) ==> InTurn(e.angle)
  {
    forall e | e in Layout(occupancy, draws)
      ensures InTurn(e.angle)
    {
      var j :| 0 <= j < |Layout(occupancy, draws)| && Layout(occupancy, draws)[j] == e;
      LayoutAngle(occupancy, draws, j);
    }
  }

  /** Only the angle of an electron comes from the draws: its shell and velocity do not. */
  lemma {:induction false} LayoutAngleFree(occupancy: seq<int>, a: seq<real>, b: seq<real>, j: int)
    requires TotalElectrons(occupancy) <= |a| && TotalElectrons(occupancy) <= |b|
    requires 0 <= j < TotalElectrons(occupancy)
    ensures |Layout(occupancy, a)| == |Layout(occupancy, b)| == TotalElectrons(occupancy)
    ensures Layout(occupancy, a)[j] == Layout(occupancy, b)[j].(angle := a[j])
    decreases |occupancy|
  {
    var k := |occupancy| - 1;
    var before := TotalElectrons(occupancy[..k]);
    if j < before {
      LayoutFront(occupancy, a, j);
      LayoutFront(occupancy, b, j);
      LayoutAngleFree(occupancy[..k], a, b, j);
    } else {
      LayoutBack(occupancy, a, j - before);
      LayoutBack(occupancy, b, j - before);
    }
  }

  /** A constructed layout is the layout of its own angles. */
  lemma LayoutIsLayoutOf(occupancy: seq<int>, draws: seq<real>)
    requires TotalElectrons(occupancy) <= |draws|
    ensures IsLayoutOf(Layout(occupancy, draws), occupancy)
  {
    var es := Layout(occupancy, draws);
    forall j | 0 <= j < |es|
      ensures es[j] == Layout(occupancy, AnglesOf(es))[j]
    {
      LayoutAngle(occupancy, draws, j);
      LayoutAngleFree(occupancy, AnglesOf(es), draws, j);
    }
  }

  /** Changing only the angles of a layout leaves a layout of the same occupancy. */
  lemma ReangledLayout(es: seq<Electron>, fs: seq<Electron>, occupancy: seq<int>)
    requires IsLayoutOf(es, occupancy) && SameOrbits(es, fs)
    ensures IsLayoutOf(fs, occupancy)
  {
    forall j | 0 <= j < |fs|
      ensures fs[j] == Layout(occupancy, AnglesOf(fs))[j]
    {
      LayoutAngleFree(occupancy, AnglesOf(fs), AnglesOf(es), j);
    }
  }

  // ---------------------------------------------------------------------------
  // Shell labels and velocities

  /**
    The `i`-th electron (0-based) of occupancy index `k` sits right after the
    electrons of the earlier shells, carries label `k + 1`, the draw at its
    position and velocity `3/(k+1) + (i / max(1, occupancy[k])) * 0.2`.
   */
  lemma {:induction false} LayoutAt(occupancy: seq<int>, draws: seq<real>, k: int, i: int)
    requires TotalElectrons(occupancy) <= |draws|
    requires 0 <= k < |occupancy| && 0 <= i < ShellSize(occupancy[k])
    ensures TotalElectrons(occupancy[..k]) + i < TotalElectrons(occupancy)
    ensures |Layout(occupancy, draws)| == TotalElectrons(occupancy)
    ensures Layout(occupancy, draws)[TotalElectrons(occupancy[..k]) + i] ==
            Electron(k + 1, draws[TotalElectrons(occupancy[..k]) + i], Velocity(k + 1, i, occupancy[k]))
    decreases |occupancy|
  {
    var n := |occupancy| - 1;
    var p := TotalElectrons(occupancy[..k]) + i;
    if k < n {
      assert occupancy[..n][..k] == occupancy[..k];
      LayoutAt(occupancy[..n], draws, k, i);
      LayoutFront(occupancy, draws, p);
    } else {
      LayoutBack(occupancy, draws, i);
    }
  }

  /** Every label names a shell of the occupancy vector: between 1 and its length. */
  lemma {:induction false} LayoutShellRange(occupancy: seq<int>, draws: seq<real>, j: int)
    requires TotalElectrons(occupancy) <= |draws|
    requires 0 <= j < TotalElectrons(occupancy)
    ensures |Layout(occupancy, draws)| == TotalElectrons(occupancy)
    ensures 1 <= Layout(occupancy, draws)[j].shell <= |occupancy|
    decreases |occupancy|
  {
    var k := |occupancy| - 1;
    var before := TotalElectrons(occupancy[..k]);
    if j < before {
      LayoutFront(occupancy, draws, j);
      LayoutShellRange(occupancy[..k], draws, j);
    } else {
      LayoutBack(occupancy, draws, j - before);
    }
  }

  /** Electrons are grouped by shell: labels never decrease along the sequence. */
  lemma {:induction false} LayoutSorted(occupancy: seq<int>, draws: seq<real>, i: int, j: int)
    requires TotalElectrons(occupancy) <= |draws|
    requires 0 <= i <= j < TotalElectrons(occupancy)
    ensures |Layout(occupancy, draws)| == TotalElectrons(occupancy)
    ensures Layout(occupancy, draws)[i].shell <= Layout(occupancy, draws)[j].shell
    decreases |occupancy|
  {
    var k := |occupancy| - 1;
    var before := TotalElectrons(occupancy[..k]);
    if j < before {
      LayoutFront(occupancy, draws, i);
      LayoutFront(occupancy, draws, j);
      LayoutSorted(occupancy[..k], draws, i, j);
    } else {
      LayoutBack(occupancy, draws, j - before);
      if i < before {
        LayoutFront(occupancy, draws, i);
        LayoutShellRange(occupancy[..k], draws, i);
      } else {
        LayoutBack(occupancy, draws, i - before);
      }
    }
  }

  /** A sequence of equal labels holds `v` as many times as it is long, and nothing else. */
  lemma {:induction false} ConstantMultiset(labels: seq<int>, v: int, s: int)
    requires forall j :: 0 <= j < |labels| ==> labels[j] == v
    ensures multiset(labels)[s] == if s == v then |labels| else 0
    decreases |labels|
  {
    if labels != [] {
      var n := |labels| - 1;
      assert labels == labels[..n] + [labels[n]];
      ConstantMultiset(labels[..n], v, s);
    }
  }

  /**
    Shell `s` occurs exactly `max(0, occupancy[s - 1])` times, and no label
    outside 1 .. |occupancy| occurs at all.
   */
  lemma {:induction false} LayoutShellCount(occupancy: seq<int>, draws: seq<real>, s: int)
    requires TotalElectrons(occupancy) <= |draws|
    ensures multiset(ShellLabels(Layout(occupancy, draws)))[s] ==
            if 1 <= s <= |occupancy| then ShellSize(occupancy[s - 1]) else 0
    decreases |occupancy|
  {
    if occupancy != [] {
      var k := |occupancy| - 1;
      var before := TotalElectrons(occupancy[..k]);
      var front := Layout(occupancy[..k], draws);
      var block := ShellBlock(k + 1, occupancy[k], draws[before..]);
      assert Layout(occupancy, draws) == front + block;
      assert ShellLabels(front + block) == ShellLabels(front) + ShellLabels(block);
      LayoutShellCount(occupancy[..k], draws, s);
      forall i | 0 <= i < |block|
        ensures ShellLabels(block)[i] == k + 1
      {
        BlockAt(k + 1, occupancy[k], draws[before..], i);
      }
      ConstantMultiset(ShellLabels(block), k + 1, s);
    }
  }

  /** Every velocity lies in [3/s, 3/s + 0.2) for the electron's shell `s`. */
  lemma {:induction false} LayoutVelocityBounds(occupancy: seq<int>, draws: seq<real>, j: int)
    requires TotalElectrons(occupancy) <= |draws|
    requires 0 <= j < TotalElectrons(occupancy)
    ensures |Layout(occupancy, draws)| == TotalElectrons(occupancy)
    ensures Layout(occupancy, draws)[j].shell >= 1
    ensures var e := Layout(occupancy, draws)[j];
            3.0 / e.shell as real <= e.angularVelocity < 3.0 / e.shell as real + 0.2
    decreases |occupancy|
  {
    var k := |occupancy| - 1;
    var before := TotalElectrons(occupancy[..k]);
    if j < before {
      LayoutFront(occupancy, draws, j);
      LayoutVelocityBounds(occupancy[..k], draws, j);
    } else {
      LayoutBack(occupancy, draws, j - before);
      VelocityRange(k + 1, j - before, occupancy[k]);
    }
  }

  /** The two shells' blocks of the carbon example, with their velocities worked out. */
  lemma CarbonBlocks(draws: seq<real>)
    requires |draws| >= 6
    ensures ShellBlock(1, 2, draws) == [Electron(1, draws[0], 3.0), Electron(1, draws[1], 3.1)]
    ensures ShellBlock(2, 4, draws[2..]) ==
      [Electron(2, draws[2], 1.5), Electron(2, draws[3], 1.55),
       Electron(2, draws[4], 1.6), Electron(2, draws[5], 1.65)]
  {
    assert Velocity(1, 0, 2) == 3.0 && Velocity(1, 1, 2) == 3.1;
    assert Velocity(2, 0, 4) == 1.5 && Velocity(2, 1, 4) == 1.55;
    assert Velocity(2, 2, 4) == 1.6 && Velocity(2, 3, 4) == 1.65;
  }

  /**
    The carbon atom's occupancy [2, 4]: two shell-1 electrons with jitters 0
    and 0.1, then four shell-2 electrons with base velocity 1.5, taking the
    first six draws.
   */
  lemma CarbonLayout(draws: seq<real>)
    requires |draws| >= 6
    ensures TotalElectrons([2, 4]) == 6
    ensures Layout([2, 4], draws) ==
      [Electron(1, draws[0], 3.0), Electron(1, draws[1], 3.1),
       Electron(2, draws[2], 1.5), Electron(2, draws[3], 1.55),
       Electron(2, draws[4], 1.6), Electron(2, draws[5], 1.65)]
  {
    assert Layout([2, 4], draws) == ShellBlock(1, 2, draws) + ShellBlock(2, 4, draws[2..]) by {
      assert [2, 4][..1] == [2] && [2][..0] == [];
      assert draws[0..] == draws;
    }
    CarbonBlocks(draws);
  }
}
