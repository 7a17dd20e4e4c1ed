/** Failure-carrying values shared by the model: Go's `nil`-able pointers and
    its `(value, error)` result pairs. */
module Wrappers {

  /** An optional value: `None` stands for Go's `nil`. */
  datatype Option<+T> = None | Some(value: T) {

    /** The value, or `default` when there is none. */
    function GetOr(default: T): T {
      match this
      case Some(v) => v
      case None => default
    }
  }

  /** A Go `(value, error)` pair in which exactly one side is meaningful. */
  datatype Result<+T, +E> = Success(value: T) | Failure(error: E) {

    /** Drops the error: Go's `v, _ := f()` where `v` is `nil` on failure. */
    function ToOption(): Option<T> {
      match this
      case Success(v) => Some(v)
      case Failure(_) => None
    }
  }
}

/** The few Kubernetes value types the two adapters read and produce. */
module KubeTypes {
  import opened Wrappers

  /** A byte of a raw, serialised payload. */
  newtype Byte = b: int | 0 <= b < 256

  type Bytes = seq<Byte>

  /** `runtime.RawExtension`: an embedded, still-serialised object. Only its
      `Raw` field is read here; `nil` and a non-nil empty slice differ. */
  datatype RawExtension = RawExtension(raw: Option<Bytes>)

  /** `v1.NodeAddressType`, the kind of address reported for a node. */
  datatype NodeAddressType =
    | NodeHostName
    | NodeExternalIP
    | NodeInternalIP
    | NodeExternalDNS
    | NodeInternalDNS
}
