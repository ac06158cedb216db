# BasicCPP propagator plugin: a Dafny model

This project models `BasicCPP`, the example C++ propagator plugin of the
Orbital Propagation Interface (OPI). The plugin has two parts:

- **A time anchor, `baseDay`.** It is 0 after construction. The first
  `runPropagation` anchors it to that call's Julian day. Every propagation
  hands the kernel `(julian_day - baseDay) * 86400 + dt` seconds.
  `runDisable` clears the anchor. That gives the plugin's reset contract:
  after disable and enable, the plugin behaves as if freshly constructed.
- **An in-place array update, `cpp_propagate`.** For every object
  `0 <= i < size` it writes `position[i]` and only the mean anomaly of
  `orbit[i]`. Then `runPropagation` marks positions and then orbits as
  updated on the host.

Layout:

- `opi_types.dfy` (`OpiTypes`): the interface's value types. These are the
  error codes, reference frames, data categories, devices, `Orbit`, `Vector3`
  and update marks.
- `population.dfy` (`PopulationModel`): the population as BasicCPP sees it.
  It has the host orbit and position arrays, the object count, and an
  append-only log of `update(category, device)` calls.
- `lifecycle.dfy` (`Lifecycle`): the `baseDay` state machine as pure
  functions. A sequence of calls maps to the replies it yields. The
  lemmas cover anchoring, the zero sentinel and the reset contract.
- `propagation.dfy` (`Propagation`): the specification of the array update.
  The per-object numerics are a caller-supplied `Kernel`.
- `basic_cpp.dfy` (`BasicCpp`): the class `BasicCPP`. Its methods are proved
  against the two specification modules.

The kernel's input is the orbit's `Geometry`: semi-major axis, eccentricity,
inclination, RAAN and argument of perigee. The mean anomaly is not part of it.
`cpp_propagate` loads the initial mean anomaly (line 174) but never uses it.
The new mean anomaly is derived from the elapsed time and the semi-major axis
(lines 182-188). So propagating
twice by the same number of seconds equals propagating once
(`PropagationIsIdempotent`).

## Model

| member | source | states |
|---|---|---|
| `BasicCpp.BasicCPP.constructor` | examples/propagator_basic_cpp.cpp:22-25 | a fresh plugin is unanchored: `baseDay == 0` |
| `BasicCpp.BasicCPP.RunPropagation` | examples/propagator_basic_cpp.cpp:33-55 | returns `Success`; the anchor becomes `julianDay` if it was 0 and is otherwise kept; the arrays become the propagation of their old contents by the elapsed seconds measured from the anchor; exactly two marks are appended to the update log, positions on the host and then orbits on the host |
| `BasicCpp.BasicCPP.RunIndexedPropagation` | examples/propagator_basic_cpp.cpp:68-71 | always returns `NotImplemented` and modifies nothing |
| `BasicCpp.BasicCPP.RunMultiTimePropagation` | examples/propagator_basic_cpp.cpp:73-76 | always returns `NotImplemented` and modifies nothing |
| `BasicCpp.BasicCPP.RunDisable` | examples/propagator_basic_cpp.cpp:83-87 | returns `Success` and clears the anchor to 0 |
| `BasicCpp.BasicCPP.RunEnable` | examples/propagator_basic_cpp.cpp:89-92 | returns `Success` and modifies nothing, the anchor included |
| `BasicCpp.BasicCPP.BackwardPropagation` | examples/propagator_basic_cpp.cpp:100-103 | is false, reading no state |
| `BasicCpp.BasicCPP.CartesianCoordinates` | examples/propagator_basic_cpp.cpp:107-110 | is true, reading no state |
| `BasicCpp.BasicCPP.ReferenceFrameOf` | examples/propagator_basic_cpp.cpp:115-118 | is the ECI frame, reading no state |
| `BasicCpp.BasicCPP.RequiresCuda` | examples/propagator_basic_cpp.cpp:122-125 | is 0, reading no state |
| `BasicCpp.BasicCPP.RequiresOpenCl` | examples/propagator_basic_cpp.cpp:129-132 | is 0, reading no state |
| `BasicCpp.BasicCPP.MinimumOpiVersionRequired` | examples/propagator_basic_cpp.cpp:135-138 | is 1, reading no state |
| `BasicCpp.BasicCPP.CppPropagate` | examples/propagator_basic_cpp.cpp:159-216 | the orbit and position arrays end up equal to `PropagateOrbits` and `PropagatePositions` of their old contents: entries below `size` are rewritten from the kernel, all others are untouched, and nothing else is modified |
| `BasicCpp.DisableEnablePropagate` | examples/propagator_basic_cpp.cpp:33-92 | from any plugin state, disable, enable and then a propagation at `(julianDay, dt)` all return `Success`; the propagation is by exactly `dt` seconds and anchors to `julianDay`, as a first call after construction does; exactly the host position mark and then the host orbit mark are appended to the update log |
| `Lifecycle.Replies` | examples/propagator_basic_cpp.cpp:33-92 | a sequence of calls yields exactly one reply per call |
| `Lifecycle.FirstPropagation` | examples/propagator_basic_cpp.cpp:39-40 | from an unanchored state, a propagation anchors to its own day and sees exactly `dt` seconds |
| `Lifecycle.LaterPropagation` | examples/propagator_basic_cpp.cpp:39-40 | from an anchored state, a propagation keeps the anchor and sees `(julianDay - baseDay) * 86400 + dt` seconds |
| `Lifecycle.ZeroDayIsNotAnAnchor` | examples/propagator_basic_cpp.cpp:39 | 0 is the unset value: a propagation at day 0 leaves the plugin unanchored, and the next propagation anchors to its own day and also sees just its `dt` |
| `Lifecycle.EnableDisableStatus` | examples/propagator_basic_cpp.cpp:83-92 | enable keeps the anchor, disable clears it, and both reply `Success` |
| `Lifecycle.RepliesAppend` | examples/propagator_basic_cpp.cpp:33-92 | the replies to two call sequences in a row are the first's replies followed by the second's, with the second starting from the anchor the first left behind |
| `Lifecycle.ResetRestoresBaseline` | examples/propagator_basic_cpp.cpp:78-92 | after any history, disable then enable makes every later call reply exactly as on a freshly constructed plugin, and leave the same final anchor |
| `Lifecycle.ResetThenPropagate` | examples/propagator_basic_cpp.cpp:78-92 | after any history, the first propagation after disable and enable sees `dt` seconds, the same as the very first propagation of a fresh plugin |
| `Lifecycle.AnchoredWhileEnabled` | examples/propagator_basic_cpp.cpp:35-40 | while no disable happens, an anchored plugin keeps its anchor; each propagation sees the days since the anchor times 86400 plus its own `dt`, and every other call replies `Success` |
| `Lifecycle.FirstCallAnchorsLaterCalls` | examples/propagator_basic_cpp.cpp:35-40 | on a fresh plugin, a first propagation at a non-zero day sees `dt` and anchors the plugin; later propagations (with no disable between) see seconds elapsed since that day |
| `Lifecycle.RepeatedPropagationSeesSameTime` | examples/propagator_basic_cpp.cpp:39-40 | repeating a propagation at the same day and step sees the same elapsed seconds |
| `Lifecycle.Anchor` | examples/propagator_basic_cpp.cpp:39 | definition, no contract: the anchor becomes the call's day when it is 0, and is otherwise kept |
| `Lifecycle.ElapsedSeconds` | examples/propagator_basic_cpp.cpp:40 | definition, no contract: days since the new anchor times 86400, plus `dt` |
| `Lifecycle.NextBaseDay` | examples/propagator_basic_cpp.cpp:39-92 | definition, no contract: a propagation anchors (line 39), disable clears the anchor (line 85), and enable keeps it (line 91) |
| `Lifecycle.ReplyTo` | examples/propagator_basic_cpp.cpp:33-92 | definition, no contract: a propagation replies with its elapsed seconds, and disable and enable reply `Success` (lines 86, 91) |
| `Lifecycle.FinalBaseDay` | examples/propagator_basic_cpp.cpp:33-92 | definition, no contract: the anchor after a sequence of calls |
| `Propagation.GeometryOf` | examples/propagator_basic_cpp.cpp:169-173 | definition, no contract: the five elements the kernel reads; the mean anomaly loaded at line 174 is unused |
| `Propagation.Advance` | examples/propagator_basic_cpp.cpp:214 | definition, no contract: an orbit whose mean anomaly alone is replaced by the kernel's |
| `Propagation.PropagateOrbits` | examples/propagator_basic_cpp.cpp:162-215 | definition, no contract: the orbit array after the loop; its meaning is stated by `PropagatedEntry` |
| `Propagation.PropagatePositions` | examples/propagator_basic_cpp.cpp:162-215 | definition, no contract: the position array after the loop; its meaning is stated by `PropagatedEntry` |
| `PopulationModel.Population.constructor` | examples/propagator_basic_cpp.cpp:43-44 | a population whose host arrays hold the given orbits and positions, with `size` objects and an empty update log |
| `PopulationModel.Population.Update` | examples/propagator_basic_cpp.cpp:51-52 | stands in for the population's `update` call: it keeps the population valid and appends exactly one `(category, device)` mark to the log |
| `Propagation.PropagatedEntry` | examples/propagator_basic_cpp.cpp:162-215 | propagation keeps both array lengths; below `size`, an entry keeps semi-major axis, eccentricity, inclination, RAAN and argument of perigee, and gets the kernel's mean anomaly and position; at `size` and beyond, both entries are unchanged |
| `Propagation.PropagationIsLocal` | examples/propagator_basic_cpp.cpp:164-214 | a propagated entry depends only on its own orbit's geometry and the seconds; other objects, its old position and its old mean anomaly do not affect it |
| `Propagation.PropagationIsIdempotent` | examples/propagator_basic_cpp.cpp:186-214 | propagating the arrays twice by the same seconds leaves them as one propagation does |

## Left out

- Kepler numerics: the orbit period, `fmod`, `mean2eccentric` (lines 144-156), the trigonometry and the radius (lines 182-211). They are single-precision floating point with transcendental functions. The model takes them as a caller-supplied `Kernel` from the five geometric elements and the seconds to a position and a mean anomaly. Nothing is proved about orbital mechanics.
- `BasicCpp.BasicCPP.RunPropagation`: does not model the `float` narrowing of the elapsed seconds at line 40, or the `float`/`double` casts in the kernel. The seconds are an exact `real`, and Julian days and `dt` are `real`s too.
- The `OPI::Host&` constructor argument is unused by the plugin and is not modelled. The destructor (lines 27-30) is empty.
- The `mode` and `IndexList*` arguments of `runPropagation` are ignored by its body, so the model omits them. The arguments of the two `NOT_IMPLEMENTED` entry points are modelled but unused. The index list is a `seq<int>` and the Julian-day array is a `seq<real>` with its length.
- Population and IndexList storage and device synchronization are not modelled; their code is not part of this model. `getOrbit(DEVICE_HOST)`, `getPosition(DEVICE_HOST)` and `getSize()` are the fields `orbit`, `position` and `size` of `PopulationModel.Population`. `update` only appends to a log. Only the host device and the `DataOrbit` and `DataPosition` categories appear. The only frames are `RefEci` and the two defaults named in the comment at lines 112-114, `RefNone` and `RefUnspecified`. The interface's other error codes, devices, categories and frames are not modelled.
- The header `src/OPI/internal/opi_propagator_plugin.h` declares `PropagatorPlugin` without bodies, so there is no behaviour to model. Its function-pointer types come from `opi_pluginprocs.h`, which is not part of this model.
- The plugin export macro and `opi_implement_plugin.h` (lines 220-222) are dynamic-library plumbing and are left out. The plugin's name, author, description and version macros (lines 7-14) are left out too.
- CUDA or OpenCL variants of the plugin do not appear.
