/**
  The few Kubernetes client-library types the operator's core reads: object
  metadata, reflector store keys and the fixed-width integers of the API.
*/
module Kube {
  import opened Wrappers

  /** Rust's `i64`, the type of `metadata.generation`. */
  newtype int64 = x: int | -0x8000_0000_0000_0000 <= x < 0x8000_0000_0000_0000

  /** Rust's `u64`, the value type of the watch-event predicates. */
  newtype uint64 = x: int | 0 <= x < 0x1_0000_0000_0000_0000

  /** A metadata timestamp; only its presence matters to the core. */
  datatype Time = Time(rfc3339: string)

  /** The part of `ObjectMeta` the core reads or sets; every field is optional. */
  datatype ObjectMeta = ObjectMeta(
    name: Option<string>,
    namespace: Option<string>,
    labels: Option<map<string, string>>,
    finalizers: Option<seq<string>>,
    generation: Option<int64>,
    deletionTimestamp: Option<Time>)

  /** `ObjectMeta::default()`: nothing set. */
  function EmptyMeta(): ObjectMeta {
    ObjectMeta(None, None, None, None, None, None)
  }

  /**
    A reflector store key: `ObjectRef::new(name)` has no namespace,
    `.within(ns)` adds one.
  */
  datatype ObjectRef = ObjectRef(name: string, namespace: Option<string>)
}
