/**
 * The BasicCPP example propagator: a host-side plugin that converts mean
 * motion into Cartesian positions, anchored to the Julian day of its first
 * propagation.
 */
module BasicCpp {
  import opened OpiTypes
  import opened PopulationModel
  import opened Lifecycle
  import opened Propagation

  class BasicCPP {
    /** Julian day of the first propagation since construction or the last disable; 0 if none. */
    var baseDay: real

    constructor ()
      ensures baseDay == 0.0
    {
      baseDay := 0.0;
    }

    /**
     * Propagates every object of `population` to `julianDay` plus `dt` seconds,
     * measured from the anchor day, then marks positions and orbits as updated
     * on the host.
     */
    method RunPropagation(population: Population, julianDay: real, dt: real, kernel: Kernel)
      returns (r: ErrorCode)
      requires population.Valid()
      modifies this`baseDay, population`updates, population.orbit, population.position
      ensures r == Success
      ensures baseDay == NextBaseDay(old(baseDay), Propagate(julianDay, dt))
      ensures population.Valid()
      ensures population.orbit[..]
           == PropagateOrbits(old(population.orbit[..]), population.size,
                              ElapsedSeconds(old(baseDay), julianDay, dt), kernel)
      ensures population.position[..]
           == PropagatePositions(old(population.orbit[..]), old(population.position[..]),
                                 population.size, ElapsedSeconds(old(baseDay), julianDay, dt), kernel)
      ensures population.updates
           == old(population.updates)
              + [UpdateMark(DataPosition, DeviceHost), UpdateMark(DataOrbit, DeviceHost)]
    {
      if baseDay == 0.0 {
        baseDay := julianDay;
      }
      var seconds := (julianDay - baseDay) * SecondsPerDay + dt;
      var orbit := population.orbit;
      var position := population.position;
      CppPropagate(orbit, position, seconds, population.size, kernel);
      population.Update(DataPosition, DeviceHost);
      population.Update(DataOrbit, DeviceHost);
      r := Success;
    }

    /** Indexed propagation is not provided by this plugin; the host falls back to its own loop. */
    method RunIndexedPropagation(population: Population, indices: seq<int>, julianDay: real, dt: real)
      returns (r: ErrorCode)
      ensures r == NotImplemented
    {
      r := NotImplemented;
    }

    /** Multi-time propagation is not provided by this plugin either. */
    method RunMultiTimePropagation(population: Population, julianDays: seq<real>, length: int, dt: real)
      returns (r: ErrorCode)
      ensures r == NotImplemented
    {
      r := NotImplemented;
    }

    /** Clears the anchor, so that the next enable starts from the initial state. */
    method RunDisable() returns (r: ErrorCode)
      modifies this`baseDay
      ensures r == Success
      ensures baseDay == NextBaseDay(old(baseDay), Disable) == 0.0
    {
      baseDay := 0.0;
      r := Success;
    }

    /** Enabling needs no resources; the anchor is left as it is. */
    method RunEnable() returns (r: ErrorCode)
      ensures r == Success
    {
      r := Success;
    }

    // Capability queries: constants that read no state.

    /** The simplified time handling cannot go backwards. */
    function BackwardPropagation(): (r: bool)
      ensures !r
    {
      false
    }

    /** Positions are produced. */
    function CartesianCoordinates(): (r: bool)
      ensures r
    {
      true
    }

    /** Positions are Earth-centred inertial. */
    function ReferenceFrameOf(): (r: ReferenceFrame)
      ensures r == RefEci
    {
      RefEci
    }

    /** No CUDA device is needed. */
    function RequiresCuda(): (r: int)
      ensures r == 0
    {
      0
    }

    /** No OpenCL device is needed. */
    function RequiresOpenCl(): (r: int)
      ensures r == 0
    {
      0
    }

    /** Written for interface version 1. */
    function MinimumOpiVersionRequired(): (r: int)
      ensures r == 1
    {
      1
    }

    /**
     * Writes the kernel's position into `position[i]` and its mean anomaly into
     * `orbit[i]` for every `0 <= i < size`, one object at a time.
     */
    method CppPropagate(orbit: array<Orbit>, position: array<Vector3>, seconds: real, size: int,
                        kernel: Kernel)
      requires size <= orbit.Length && size <= position.Length
      modifies orbit, position
      ensures orbit[..] == PropagateOrbits(old(orbit[..]), size, seconds, kernel)
      ensures position[..] == PropagatePositions(old(orbit[..]), old(position[..]), size, seconds, kernel)
    {
      var i := 0;
      while i < size
        invariant 0 <= i <= (if size < 0 then 0 else size)
        invariant forall k :: 0 <= k < i ==>
                    orbit[k] == Advance(old(orbit[k]), seconds, kernel)
                    && position[k] == kernel(GeometryOf(old(orbit[k])), seconds).position
        invariant forall k :: i <= k < orbit.Length ==> orbit[k] == old(orbit[k])
        invariant forall k :: i <= k < position.Length ==> position[k] == old(position[k])
      {
        var out := kernel(GeometryOf(orbit[i]), seconds);
        position[i] := out.position;
        orbit[i] := orbit[i].(meanAnomaly := out.meanAnomaly);
        i := i + 1;
      }
      assert orbit[..] == PropagateOrbits(old(orbit[..]), size, seconds, kernel);
    }
  }

  /**
   * The reset contract seen by a host: whatever state `plugin` is in, disabling
   * it, enabling it and propagating at (`julianDay`, `dt`) propagates by exactly
   * `dt` seconds, as the very first propagation after construction does.
   */
  method DisableEnablePropagate(plugin: BasicCPP, population: Population, julianDay: real, dt: real,
                                kernel: Kernel)
    returns (disabled: ErrorCode, enabled: ErrorCode, propagated: ErrorCode)
    requires population.Valid()
    modifies plugin`baseDay, population`updates, population.orbit, population.position
    ensures disabled == Success && enabled == Success && propagated == Success
    ensures plugin.baseDay == julianDay
    ensures population.Valid()
    ensures population.orbit[..] == PropagateOrbits(old(population.orbit[..]), population.size, dt, kernel)
    ensures population.position[..]
         == PropagatePositions(old(population.orbit[..]), old(population.position[..]), population.size, dt, kernel)
    ensures population.updates
         == old(population.updates)
            + [UpdateMark(DataPosition, DeviceHost), UpdateMark(DataOrbit, DeviceHost)]
  {
    disabled := plugin.RunDisable();
    enabled := plugin.RunEnable();
    propagated := plugin.RunPropagation(population, julianDay, dt, kernel);
    FirstPropagation(julianDay, dt);
  }
}
