/** The writer's pool sections, seen from outside: each is an interning map
    from an item's structural key to the index the section gave it. How a
    section assigns indices is not part of this model; a key the section does
    not hold is a dangling reference. */
module Pools {
  import opened Wrappers

  function Find<K>(pool: map<K, nat>, key: K): (r: Result<nat>)
    ensures r.Ok? <==> key in pool
    ensures r.Ok? ==> r.value == pool[key]
    ensures r.Err? ==> r.error == DanglingReference
  {
    if key in pool then Ok(pool[key]) else Err(DanglingReference)
  }

  /** The index sections the encoders look items up in. Methods, fields and
      protos are keyed by the strings their __hash__ is computed from. */
  datatype Pools = Pools(
    strings: map<string, nat>,
    types: map<string, nat>,
    protos: map<string, nat>,
    fields: map<string, nat>,
    methods: map<string, nat>)
}
