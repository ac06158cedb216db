/** Value types of the orbital propagation interface that the BasicCPP plugin uses. */
module OpiTypes {

  /** The result codes a propagator returns (only those BasicCPP produces). */
  datatype ErrorCode = Success | NotImplemented

  /** Reference frame of the state vectors a propagator produces. */
  datatype ReferenceFrame = RefNone | RefUnspecified | RefEci

  /** Categories of population data that can be marked as updated. */
  datatype DataCategory = DataOrbit | DataPosition

  /** Memory spaces population data can live in; BasicCPP only touches the host. */
  datatype Device = DeviceHost

  /** The six classical orbital elements of one object. */
  datatype Orbit = Orbit(
    semiMajorAxis: real,
    eccentricity: real,
    inclination: real,
    raan: real,
    argOfPerigee: real,
    meanAnomaly: real)

  /** A Cartesian 3-vector. */
  datatype Vector3 = Vector3(x: real, y: real, z: real)

  /** One call of population.update(category, device). */
  datatype UpdateMark = UpdateMark(category: DataCategory, device: Device)
}
