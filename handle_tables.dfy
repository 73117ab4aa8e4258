/**
 * The handle tables of the bridge: dense, append-only arrays from an integer
 * id to an opaque host object (a WebGL shader, program, buffer or uniform
 * location).
 */
module HandleTables {
  import opened Wrappers

  /**
   * An opaque host object. `Null` is what the host hands back where it has no
   * object (getUniformLocation of an unknown name); it is stored like any other.
   */
  datatype HostRef = Null | Ref(serial: nat)

  type Table = seq<HostRef>

  /**
   * `table[id]` in JavaScript: no range check, and an id outside the array
   * (negative or too large) yields `undefined`, here `None`.
   */
  function Lookup(t: Table, id: int): (r: Option<HostRef>)
    ensures r.Some? <==> 0 <= id < |t|
    ensures r.Some? ==> r.value == t[id]
  {
    if 0 <= id < |t| then Some(t[id]) else None
  }

  /** Appending resolves the new id to the appended object and keeps every older id. */
  lemma LookupAfterPush(t: Table, x: HostRef, id: int)
    ensures Lookup(t + [x], |t|) == Some(x)
    ensures id != |t| ==> Lookup(t + [x], id) == Lookup(t, id)
  {
  }

  /** An id that resolves in a table resolves to the same object in every extension of it. */
  lemma LookupInExtension(t: Table, u: Table, id: int)
    requires t <= u
    ensures Lookup(t, id).Some? ==> Lookup(u, id) == Lookup(t, id)
    ensures Lookup(u, id).None? ==> Lookup(t, id).None?
  {
  }
}
