# Atom simulation, modelled in Dafny

`atom_simulation.cpp` is a toy simulation of an atom. Its electrons orbit on circular shells. An
`AtomSimulation` is built from an element name, proton and neutron counts and a shell-occupancy
vector. Construction lays the electrons out shell by shell. Each electron gets the shell label `k + 1`
for occupancy index `k` and an initial angle drawn uniformly from [0, 2π). Its angular velocity is
`3/shell` plus a jitter `(i / max(1, count)) * 0.2`. Each `step(dt)` turns every electron by
`angularVelocity * dt` and reduces the angle into [0, 2π) with `fmod` (plus one turn when the result
is negative). It then adds `dt` to the simulated time. The driver `main` builds carbon
(occupancy `[2, 4]`) and takes 12 steps of 0.15.

The model has four modules, one file each:

- `angles.dfy` (`Angles`): the constant `kPi` and `fmod` as `x - m * trunc(x / m)`.
  - `Normalize` is the step's angle update.
  - `Direction` characterises the result of that update: the unique angle in [0, 2π) that differs
    from its argument by a whole number of turns.
- `shells.dfy` (`Shells`): the `Electron` record.
  - `Layout(occupancy, draws)` is the electron sequence that construction produces.
  - Lemmas state its length, shell order, shell counts, velocities and angles.
- `motion.dfy` (`Motion`): `Advanced(es, dt)` is the effect of one step on the electron sequence,
  and `Evolved` is `n` steps.
  - The lemmas prove that steps keep the layout.
  - They also prove that `n` steps of `dt` reach the same direction as one turn by
    `angularVelocity * (n * dt)` (no drift).
- `atom_simulation.dfy` (`Atom`): the class `AtomSimulation`.
  - Its fields are those of the C++ class. The generator is replaced by `rng`, the sequence of
    values the angle distribution still has to yield.
  - The constructor calls `InitializeElectrons`. Its outer loop runs over the shells, and its
    inner loop, `AppendShell`, appends one shell's electrons to `electrons`.
  - `Step` updates the angles in place.
  - The module also holds `ShellRadius` and the carbon driver `CarbonExample`.
  - Each method is proved against the specification functions above. `Valid()` (the electrons are
    the layout of the occupancy vector and every angle is in [0, 2π)) is established by
    construction and kept by every step.

Doubles are exact reals. The Mersenne Twister is a parameter: the constructor takes `draws`, the values
the uniform distribution would yield, each in [0, 2π) as its contract promises. So two simulations
built from the same inputs and draws, then stepped alike, agree: every state is a function of them.

A shell whose count is not positive gets no electrons, because the loop at `atom_simulation.cpp:72`
does not run. The model therefore counts `max(0, count)` electrons per shell (`ShellSize`,
`TotalElectrons`), and a negative count is an ordinary input, not an error.

## Model

| member | source | states |
|---|---|---|
| Angles.Pi | atom_simulation.cpp:60 | `kPi`, the decimal literal `3.14159265358979323846` taken as an exact real |
| Angles.TwoPi | atom_simulation.cpp:63 | one full turn `2.0 * kPi`, the upper end of the angle distribution and the modulus of the step's `fmod` |
| Angles.FMod | atom_simulation.cpp:32 | `std::fmod(x, m)` for `m > 0` has the sign of `x`, magnitude below `m`, and differs from `x` by a whole number of `m` |
| Angles.Trunc | atom_simulation.cpp:32 | the quotient inside `fmod` is rounded toward zero: it lies between 0 and `x`, less than one away from `x` |
| Angles.Normalize | atom_simulation.cpp:32-35 | the step's angle update (remainder modulo 2π, plus 2π when negative) lands in [0, 2π) and denotes the same direction as its argument |
| Angles.Direction | atom_simulation.cpp:32-35 | the direction of an angle: in [0, 2π) and congruent to it modulo 2π |
| Angles.DirectionUnique | atom_simulation.cpp:32-35 | an angle in [0, 2π) congruent to `x` is the direction of `x`, so the reduced angle is determined |
| Angles.NormalizeIsDirection | atom_simulation.cpp:32-35 | the `fmod`-then-add-2π formula computes exactly the direction of its argument |
| Angles.DirectionInTurn | atom_simulation.cpp:32-35 | an angle already in [0, 2π) is left as it is by the reduction |
| Angles.DirectionShift | atom_simulation.cpp:32-35 | reducing before or after adding a further turn gives the same direction |
| Angles.CongruentInTurn | atom_simulation.cpp:32-35 | two angles in [0, 2π) that differ by whole turns are equal |
| Shells.Max | atom_simulation.cpp:73 | `std::max(1, count)`: at least both arguments and equal to one of them |
| Shells.ShellSize | atom_simulation.cpp:72 | how many times `for (int i = 0; i < count; ++i)` runs: `count` when positive, otherwise 0 |
| Shells.ShellSizeIsMax | atom_simulation.cpp:72 | that count is `max(0, count)`, and it is 0 exactly when `count` is not positive |
| Shells.TotalElectrons | atom_simulation.cpp:65-72 | the number of electrons construction creates: the sum over the shells of `max(0, count)`, since the inner loop does not run for a count that is not positive |
| Shells.NoElectronsExactly | atom_simulation.cpp:65-72 | construction creates no electron if and only if no shell has a positive count |
| Shells.Velocity | atom_simulation.cpp:69-73 | the velocity of the `i`-th electron of a shell holding `count`: `3/shell + (i / max(1, count)) * 0.2` |
| Shells.VelocityRange | atom_simulation.cpp:69-73 | the first electron of a shell moves at the base velocity `3/shell`, and every electron of the shell at least that and below `3/shell + 0.2` |
| Shells.ShellBlock | atom_simulation.cpp:72-78 | the electrons the inner loop appends for one shell: `max(0, count)` of them, whose angles are the next draws in order |
| Shells.Layout | atom_simulation.cpp:62-81 | the electrons construction produces, the shells' blocks one after the other; there are `TotalElectrons(occupancy)` of them |
| Shells.LayoutFront | atom_simulation.cpp:65-78 | appending the last shell's block leaves the earlier shells' electrons where they were |
| Shells.LayoutBack | atom_simulation.cpp:65-78 | the last shell's `i`-th electron comes right after the earlier shells' electrons, with that shell's label, the draw at its position and its jitter velocity |
| Shells.NoShellsNoElectrons | atom_simulation.cpp:65 | an empty occupancy vector gives no electrons |
| Shells.TotalPrefix | atom_simulation.cpp:65-72 | the electrons of the first `k + 1` shells are those of the first `k` plus `max(0, occupancy[k])`, and never more than the total |
| Shells.LayoutExtend | atom_simulation.cpp:65-80 | each outer iteration appends the block of shell `k + 1` to the electrons of the earlier shells |
| Shells.BlockAt | atom_simulation.cpp:72-78 | the `i`-th electron of a shell's block has that shell's label, the `i`-th draw and velocity `3/shell + (i / max(1, count)) * 0.2` |
| Shells.LayoutAt | atom_simulation.cpp:65-78 | the `i`-th electron of occupancy index `k` sits right after the earlier shells' electrons, with label `k + 1`, the draw at its position and velocity `3/(k+1) + (i / max(1, count)) * 0.2` |
| Shells.LayoutShellRange | atom_simulation.cpp:65-66 | every shell label lies between 1 and the number of shells |
| Shells.LayoutSorted | atom_simulation.cpp:65-78 | shell labels are non-decreasing along the electron vector |
| Shells.LayoutShellCount | atom_simulation.cpp:65-78 | label `s` occurs exactly `max(0, occupancy[s-1])` times for `1 <= s <= |occupancy|`, otherwise never |
| Shells.LayoutVelocityBounds | atom_simulation.cpp:70-77 | every velocity of shell `s` lies in `[3/s, 3/s + 0.2)` |
| Shells.LayoutAngle | atom_simulation.cpp:76 | electron `j` takes the `j`-th value drawn from the angle distribution |
| Shells.LayoutAnglesInTurn | atom_simulation.cpp:63-76 | when the draws lie in [0, 2π), so do all initial angles |
| Shells.LayoutIsLayoutOf | atom_simulation.cpp:62-81 | the constructed electrons have the layout shape of their occupancy vector |
| Shells.ReangledLayout | atom_simulation.cpp:30-38 | changing only angles keeps that shape |
| Shells.CarbonBlocks | atom_simulation.cpp:98 | the carbon shells' blocks: velocities 3.0 and 3.1 on shell 1, and 1.5, 1.55, 1.6 and 1.65 on shell 2 |
| Shells.CarbonLayout | atom_simulation.cpp:98 | carbon `[2, 4]` gets two shell-1 electrons with velocities 3.0 and 3.1 and four shell-2 electrons with 1.5, 1.55, 1.6, 1.65 |
| Motion.Sweep | atom_simulation.cpp:32 | the turn `electron.angularVelocity * dt` an electron makes in one step |
| Motion.Advance | atom_simulation.cpp:31-36 | one electron after a step keeps its shell and velocity and its angle is in [0, 2π), congruent to `angle + v * dt` |
| Motion.Advanced | atom_simulation.cpp:30-36 | a step adds, removes, reorders, relabels and re-speeds no electron, and every new angle is in [0, 2π), congruent to `angle + v * dt` |
| Motion.AdvancedAt | atom_simulation.cpp:31-36 | electron `j` after a step is electron `j` with its angle replaced by the direction of `angle + v * dt` |
| Motion.AdvancedKeepsLayout | atom_simulation.cpp:30-38 | a step keeps the layout shape given by construction |
| Motion.Evolved | atom_simulation.cpp:103-106 | `n` steps of `dt` in a row leave count, order, labels and velocities unchanged, and after at least one step every angle is in [0, 2π) |
| Motion.Elapsed | atom_simulation.cpp:37 | the time accumulated by `n` increments of `d`: never negative for `d >= 0`, and at least `d` once a step of positive `d` was taken |
| Motion.ElapsedIsProduct | atom_simulation.cpp:37 | time starting at 0 and growing by `dt` per step is `n * dt` after `n` steps |
| Motion.EvolvedClosedForm | atom_simulation.cpp:30-36 | after `n >= 1` steps each angle is the direction of the initial angle plus `n` accumulated step-turns |
| Motion.ElapsedTurn | atom_simulation.cpp:32 | `n` accumulated step-turns `v * dt` equal the turn `v * (n * dt)` |
| Motion.EvolvedAngle | atom_simulation.cpp:30-36 | after `n >= 1` steps each angle is the direction of the initial angle plus `v * (n * dt)` |
| Atom.ShellRadius | atom_simulation.cpp:83-85 | the radius is positive exactly for positive shells, and at least 0.8 from shell 1 on |
| Atom.ShellRadiusIncreasing | atom_simulation.cpp:83-85 | the radius strictly increases with the shell index |
| Atom.ShellRadiusValues | atom_simulation.cpp:83-85 | shell 1 has radius 0.8 and shell 2 radius 1.6 |
| Atom.AtomSimulation.Valid | atom_simulation.cpp:62-81 | the object invariant: the electrons are the layout of `shellOccupancy` for their current angles, and every angle is in [0, 2π); construction sets it up and `step` keeps it |
| Atom.AtomSimulation.constructor | atom_simulation.cpp:17-28 | stores the element data, lays out `Layout(occupancy, draws)` with one draw per electron consumed, time 0, and establishes `Valid()` |
| Atom.AtomSimulation.InitializeElectrons | atom_simulation.cpp:62-81 | the nested loops build exactly `Layout(shellOccupancy, draws)` and consume `TotalElectrons` draws |
| Atom.AtomSimulation.AppendShell | atom_simulation.cpp:69-79 | the inner loop for one shell appends exactly that shell's block and consumes `max(0, count)` draws |
| Atom.AtomSimulation.Step | atom_simulation.cpp:30-38 | the electrons become `Advanced(old electrons, dt)`, time grows by `dt`, and `Valid()` is kept |
| Atom.TurnedElectron | atom_simulation.cpp:32-35 | the in-place angle update of one electron gives the electron `Advanced` specifies |
| Atom.CarbonExample | atom_simulation.cpp:96-106 | after the driver's 12 steps of 0.15 the time is 1.8 and the electrons are the 12-fold step of the carbon layout |
| Atom.CarbonFinalAngles | atom_simulation.cpp:96-106 | after the driver each carbon electron points in the direction of its initial angle plus its velocity times 1.8 |
| Atom.CarbonFirstStep | atom_simulation.cpp:30-36 | one step of 0.15 turns the shell-1 carbon electrons by 0.45 and 0.465 (jitters 0 and 0.1) |

## Left out

- `printState` (`atom_simulation.cpp:40-57`) only writes formatted text to standard output. It changes no state, and the driver's calls to it are omitted.
- `std::cos`/`std::sin` (`atom_simulation.cpp:49-50`) are transcendental library functions. `ShellRadius` is modelled, but the Cartesian coordinates are not.
- `std::mt19937`, its seed (default 42) and the internals of `std::uniform_real_distribution` are library code. They are replaced by the supplied sequence `draws`, each value in [0, 2π).
- Atom.AtomSimulation.constructor: requires at least one draw per electron, because a finite sequence stands for a generator that never runs out.
- Doubles are modelled as exact reals, so IEEE-754 rounding is not modelled. In doubles, adding 2π to a tiny negative `fmod` result can round to exactly 2π. Also, twelve additions of 0.15 do not give exactly 1.8 in doubles.
- `kPi` is the decimal literal `3.14159265358979323846` as an exact real. It is neither π itself nor its double rounding.
- `elementName`, `protons` and `neutrons` are stored and preserved. Only `printState` (`atom_simulation.cpp:42`), which is left out, reads them.
- `static_cast<int>(shellIndex) + 1` and the `int` loop counter cannot overflow in the model. Integers are unbounded, so shell indices beyond the `int` range are not modelled.
- Angles.Direction: a ghost characterisation; the computable update is `Normalize`, and `NormalizeIsDirection` proves the two equal.
