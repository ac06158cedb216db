/**
 * The part of a population that a host-side propagator sees: the host copies
 * of the orbit and position arrays, the object count, and a log of the
 * update(category, device) marks the propagator has issued.
 */
module PopulationModel {
  import opened OpiTypes

  class Population {
    /** Host copy of the orbital elements (getOrbit(DEVICE_HOST)). */
    var orbit: array<Orbit>
    /** Host copy of the Cartesian positions (getPosition(DEVICE_HOST)). */
    var position: array<Vector3>
    /** Number of objects (getSize()). */
    var size: nat
    /** Every update mark issued so far, oldest first; only ever appended to. */
    var updates: seq<UpdateMark>

    ghost predicate Valid()
      reads this
    {
      size <= orbit.Length && size <= position.Length
    }

    constructor (orbits: seq<Orbit>, positions: seq<Vector3>)
      requires |orbits| == |positions|
      ensures Valid() && size == |orbits|
      ensures orbit[..] == orbits && position[..] == positions && updates == []
      ensures fresh(orbit) && fresh(position)
    {
      orbit := new Orbit[|orbits|](i requires 0 <= i < |orbits| => orbits[i]);
      position := new Vector3[|positions|](i requires 0 <= i < |positions| => positions[i]);
      size := |orbits|;
      updates := [];
    }

    /** Marks `category` as freshly written on `device`. */
    method Update(category: DataCategory, device: Device)
      requires Valid()
      modifies this`updates
      ensures Valid()
      ensures updates == old(updates) + [UpdateMark(category, device)]
    {
      updates := updates + [UpdateMark(category, device)];
    }
  }
}
