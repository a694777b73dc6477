/**
  The watch-event predicate of the operator's controllers: the value whose
  change lets an event through. An object being deleted always reports 0, any
  other object its metadata generation.
*/
module Predicates {
  import opened Wrappers
  import opened Kube

  /** Rust's `g as u64` on an `i64`: the same bits read as unsigned (two's complement). */
  function AsU64(g: int64): (u: uint64)
    ensures g >= 0 ==> u as int == g as int
    ensures g < 0 ==> u as int == g as int + 0x1_0000_0000_0000_0000
  {
    if g >= 0 then g as int as uint64 else (g as int + 0x1_0000_0000_0000_0000) as uint64
  }

  /** The cast loses nothing: different generations give different values. */
  lemma AsU64Injective(a: int64, b: int64)
    requires AsU64(a) == AsU64(b)
    ensures a == b
  {
  }

  /**
    The client library's generation predicate:
    `meta.generation.map(|g| g as u64)`.
  */
  function Generation(meta: ObjectMeta): (r: Option<uint64>)
    ensures r.Some? <==> meta.generation.Some?
    ensures r.Some? ==> r.value == AsU64(meta.generation.value)
  {
    match meta.generation
    case Some(g) => Some(AsU64(g))
    case None => None
  }

  /** `generation_with_deletion`: 0 for an object with a deletion timestamp, its generation otherwise. */
  function GenerationWithDeletion(meta: ObjectMeta): (r: Option<uint64>)
    ensures meta.deletionTimestamp.Some? ==> r == Some(0)
    ensures meta.deletionTimestamp.None? ==> r == Generation(meta)
  {
    match meta.deletionTimestamp
    case Some(_) => Some(0)
    case None => Generation(meta)
  }

  /** The predicate is silent (None) exactly for a live object that carries no generation. */
  lemma SilentIffLiveWithoutGeneration(meta: ObjectMeta)
    ensures GenerationWithDeletion(meta).None? <==> meta.deletionTimestamp.None? && meta.generation.None?
  {
  }

  /** Any two objects being deleted give the same value, whatever their generations. */
  lemma DeletingObjectsAgree(a: ObjectMeta, b: ObjectMeta)
    requires a.deletionTimestamp.Some? && b.deletionTimestamp.Some?
    ensures GenerationWithDeletion(a) == GenerationWithDeletion(b) == Some(0)
  {
  }

  /**
    Setting a deletion timestamp on an object changes the value, and so lets
    the event through, unless the object's generation is already 0.
  */
  lemma DeletionObserved(meta: ObjectMeta, t: Time)
    ensures GenerationWithDeletion(meta.(deletionTimestamp := Some(t)))
            != GenerationWithDeletion(meta.(deletionTimestamp := None))
            <==> meta.generation != Some(0)
  {
    if meta.generation.Some? && meta.generation != Some(0) {
      assert AsU64(meta.generation.value) != AsU64(0);
    }
  }
}
