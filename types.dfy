/** Values shared by the naming layer: optional values and the error conditions it reports. */
module Types {

  /** Go's "value or nil". */
  datatype Option<+T> = None | Some(value: T)

  /** The errors the naming layer distinguishes. ErrResolveFailed and ErrResolveRecursion are
      the package's own sentinels; every error produced by a collaborator (path parsing,
      identity derivation, the record publisher, a backing resolver) is an External value. */
  datatype Error =
    | ResolveFailed
    | ResolveRecursion
    | External(code: int)
}
