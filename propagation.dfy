/**
 * The array update of cpp_propagate, with the floating-point Kepler numerics
 * abstracted into a kernel function supplied by the caller.
 */
module Propagation {
  import opened OpiTypes

  /**
   * The orbital elements the kernel reads. The mean anomaly is not among them:
   * cpp_propagate loads it but never uses it; the new mean anomaly is derived
   * from the elapsed time and the semi-major axis.
   */
  datatype Geometry = Geometry(
    semiMajorAxis: real,
    eccentricity: real,
    inclination: real,
    raan: real,
    argOfPerigee: real)

  /** What the kernel computes for one object: its position and its new mean anomaly. */
  datatype KernelOut = KernelOut(position: Vector3, meanAnomaly: real)

  /** The per-object numerics (orbit period, anomalies, radius, rotation into ECI). */
  type Kernel = (Geometry, real) -> KernelOut

  function GeometryOf(o: Orbit): Geometry
  {
    Geometry(o.semiMajorAxis, o.eccentricity, o.inclination, o.raan, o.argOfPerigee)
  }

  /** One object's orbit after propagation: only the mean anomaly is rewritten. */
  function Advance(o: Orbit, seconds: real, kernel: Kernel): Orbit
  {
    o.(meanAnomaly := kernel(GeometryOf(o), seconds).meanAnomaly)
  }

  /** The orbit array after propagating its first `size` entries by `seconds`. */
  function PropagateOrbits(orbits: seq<Orbit>, size: int, seconds: real, kernel: Kernel): seq<Orbit>
  {
    seq(|orbits|, k requires 0 <= k < |orbits| =>
      if k < size then Advance(orbits[k], seconds, kernel) else orbits[k])
  }

  /** The position array after propagating the first `size` objects of `orbits` by `seconds`. */
  function PropagatePositions(orbits: seq<Orbit>, positions: seq<Vector3>, size: int,
                              seconds: real, kernel: Kernel): seq<Vector3>
    requires size <= |orbits|
  {
    seq(|positions|, k requires 0 <= k < |positions| =>
      if k < size then kernel(GeometryOf(orbits[k]), seconds).position else positions[k])
  }

  /**
   * What propagation does to entry `i`: below `size` the position is the kernel's
   * and the orbit keeps every element except the mean anomaly, which is the
   * kernel's; from `size` on both entries are untouched.
   */
  lemma PropagatedEntry(orbits: seq<Orbit>, positions: seq<Vector3>, size: int,
                        seconds: real, kernel: Kernel, i: int)
    requires size <= |orbits| && size <= |positions|
    requires 0 <= i < |orbits| && i < |positions|
    ensures |PropagateOrbits(orbits, size, seconds, kernel)| == |orbits|
    ensures |PropagatePositions(orbits, positions, size, seconds, kernel)| == |positions|
    ensures i < size ==>
      var o, o' := orbits[i], PropagateOrbits(orbits, size, seconds, kernel)[i];
      && o'.semiMajorAxis == o.semiMajorAxis
      && o'.eccentricity == o.eccentricity
      && o'.inclination == o.inclination
      && o'.raan == o.raan
      && o'.argOfPerigee == o.argOfPerigee
      && o'.meanAnomaly == kernel(GeometryOf(o), seconds).meanAnomaly
      && PropagatePositions(orbits, positions, size, seconds, kernel)[i]
         == kernel(GeometryOf(o), seconds).position
    ensures size <= i ==>
      && PropagateOrbits(orbits, size, seconds, kernel)[i] == orbits[i]
      && PropagatePositions(orbits, positions, size, seconds, kernel)[i] == positions[i]
  {
  }

  /**
   * Each propagated entry depends only on that entry's own orbit geometry and on
   * `seconds`: not on other objects, nor on its old position or mean anomaly.
   */
  lemma PropagationIsLocal(orbits1: seq<Orbit>, positions1: seq<Vector3>,
                           orbits2: seq<Orbit>, positions2: seq<Vector3>,
                           size: int, seconds: real, kernel: Kernel, i: int)
    requires size <= |orbits1| && size <= |orbits2|
    requires 0 <= i < size && i < |positions1| && i < |positions2|
    requires GeometryOf(orbits1[i]) == GeometryOf(orbits2[i])
    ensures PropagatePositions(orbits1, positions1, size, seconds, kernel)[i]
         == PropagatePositions(orbits2, positions2, size, seconds, kernel)[i]
    ensures GeometryOf(PropagateOrbits(orbits1, size, seconds, kernel)[i])
         == GeometryOf(PropagateOrbits(orbits2, size, seconds, kernel)[i])
    ensures PropagateOrbits(orbits1, size, seconds, kernel)[i].meanAnomaly
         == PropagateOrbits(orbits2, size, seconds, kernel)[i].meanAnomaly
  {
  }

  /** Propagating twice by the same `seconds` leaves both arrays as one propagation does. */
  lemma PropagationIsIdempotent(orbits: seq<Orbit>, positions: seq<Vector3>, size: int,
                                seconds: real, kernel: Kernel)
    requires size <= |orbits|
    ensures var orbits1 := PropagateOrbits(orbits, size, seconds, kernel);
            var positions1 := PropagatePositions(orbits, positions, size, seconds, kernel);
            && PropagateOrbits(orbits1, size, seconds, kernel) == orbits1
            && PropagatePositions(orbits1, positions1, size, seconds, kernel) == positions1
  {
    var orbits1 := PropagateOrbits(orbits, size, seconds, kernel);
    var positions1 := PropagatePositions(orbits, positions, size, seconds, kernel);
    forall k | 0 <= k < |orbits| && k < size
      ensures GeometryOf(orbits1[k]) == GeometryOf(orbits[k])
    {
    }
    assert PropagateOrbits(orbits1, size, seconds, kernel) == orbits1;
    assert PropagatePositions(orbits1, positions1, size, seconds, kernel) == positions1;
  }
}
